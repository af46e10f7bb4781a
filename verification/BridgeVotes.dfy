/**
 What every message of a voting task rests on (src/engine/bridge/mod.rs).
 */
module BridgeVotes {
  import opened Words
  import opened Wrappers
  import opened ShardUtils
  import opened EventBase
  import opened BridgeEvents
  import opened BridgeRuns
  import opened EthEvents
  import EthSubscriber
  import EthRounds

  // ---------------------------------------------------------------------------
  // Every message follows a check
  // ---------------------------------------------------------------------------

  /** Step `j` of the run was a check by this task, when the event was pending, and this task
      made no step since. */
  ghost predicate LastChecked(env: Environment, actions: seq<Action>, t: TaskId, account: Account, j: nat) {
    && j < |actions| && StepOf(actions[j], t)
    && ChecksPending(Run(env, actions[..j]), t, account)
    && forall i :: j < i < |actions| ==> !StepOf(actions[i], t)
  }

  predicate ChecksPending(s: State, t: TaskId, account: Account) {
    t in s.tasks && s.tasks[t].Checking? && s.tasks[t].account == account && account in s.shared.events.pending
  }

  lemma SendingAfterCheck(env: Environment, s: State, a: Action, t: TaskId)
    requires StepOf(a, t) && t in AfterAction(env, s, a).tasks && AfterAction(env, s, a).tasks[t].Sending?
    ensures ChecksPending(s, t, AfterAction(env, s, a).tasks[t].account)
  {
    StepLeadsTo(env, s, a, t);
    OnlyChecksSend(env, s.shared, s.tasks[t], a.input);
  }

  lemma OnlyChecksSend(env: Environment, s: Shared, task: Task, input: Input)
    requires var next := StepEffect(env, s, task, input).next; next.Some? && next.value.Sending?
    ensures task.Checking? && task.account in s.events.pending
    ensures StepEffect(env, s, task, input).next.value.account == task.account
  {
  }

  lemma SendingUnmoved(env: Environment, s: State, a: Action, t: TaskId)
    requires TasksNumbered(s) && !StepOf(a, t)
    requires t in AfterAction(env, s, a).tasks && AfterAction(env, s, a).tasks[t].Sending?
    ensures t in s.tasks && s.tasks[t] == AfterAction(env, s, a).tasks[t]
  {
    OthersUnmoved(env, s, a, t);
  }

  lemma LastCheckedLater(env: Environment, actions: seq<Action>, a: Action, t: TaskId, account: Account, j: nat)
    requires LastChecked(env, actions, t, account, j) && !StepOf(a, t)
    ensures LastChecked(env, actions + [a], t, account, j)
  {
    assert (actions + [a])[..j] == actions[..j];
  }

  lemma LastCheckedNow(env: Environment, actions: seq<Action>, a: Action, t: TaskId, account: Account)
    requires StepOf(a, t) && ChecksPending(Run(env, actions), t, account)
    ensures LastChecked(env, actions + [a], t, account, |actions|)
  {
    assert (actions + [a])[..|actions|] == actions;
  }

  ghost predicate IsSending(s: State, t: TaskId) {
    t in s.tasks && s.tasks[t].Sending?
  }

  /** In every run a task about to send found the event pending in the last step it made:
      each message, resent ones included, follows a check of its own. */
  lemma {:induction false} SendFollowsCheck(env: Environment, actions: seq<Action>, t: TaskId) returns (j: nat)
    requires IsSending(Run(env, actions), t)
    ensures LastChecked(env, actions, t, Run(env, actions).tasks[t].account, j)
  {
    var front, a := actions[..|actions| - 1], actions[|actions| - 1];
    var s := Run(env, front);
    var account := AfterAction(env, s, a).tasks[t].account;
    assert actions == front + [a];
    if StepOf(a, t) {
      SendingAfterCheck(env, s, a, t);
      LastCheckedNow(env, front, a, t, account);
      j := |front|;
    } else {
      RunNumbersTasks(env, front);
      SendingUnmoved(env, s, a, t);
      j := SendFollowsCheck(env, front, t);
      LastCheckedLater(env, front, a, t, account, j);
    }
  }

  // ---------------------------------------------------------------------------
  // Where a ballot comes from
  // ---------------------------------------------------------------------------

  /** The step that gave a task its data: what it was before and after. */
  function OriginOf(task: Task): Option<(Task, Task)> {
    match task
    case EthConfiguring(account, _) => Some((Examining(account), task))
    case TonConfiguring(account, _, _) => Some((Examining(account), task))
    case Verifying(account, init, _, _) => Some((EthConfiguring(account, init), task))
    case Awaiting(account, init, chain, request, _) => Some((Verifying(account, init, chain, request), task))
    case TakingObserver(account, b) => Some((Decided(account, b), task))
    case Checking(account, b) => Some((Decided(account, b), TakingObserver(account, b)))
    case Sending(account, b) => Some((Decided(account, b), TakingObserver(account, b)))
    case Delivering(account, b) => Some((Decided(account, b), TakingObserver(account, b)))
    case _ => None
  }

  /** The task whose last step made the ballot. */
  function Decided(account: Account, b: Ballot): Task {
    match b
    case EthBallot(init, chain, request, ticket, _) => Awaiting(account, init, chain, request, ticket)
    case TonBallot(init, round, _) => TonConfiguring(account, init, round)
  }

  /** Step `j` of the run took this task from `before` to `after`. */
  ghost predicate StepTook(env: Environment, actions: seq<Action>, t: TaskId, before: Task, after: Task, j: nat) {
    && j < |actions| && StepOf(actions[j], t)
    && Took(env, Run(env, actions[..j]), actions[j].input, t, before, after)
  }

  ghost predicate Took(env: Environment, s: State, input: Input, t: TaskId, before: Task, after: Task) {
    TaskAt(s, t) == Some(before) && StepEffect(env, s.shared, before, input).next == Some(after)
  }

  lemma StepOrigin(env: Environment, s: Shared, task: Task, input: Input, next: Task)
    requires StepEffect(env, s, task, input).next == Some(next) && OriginOf(next).Some?
    ensures OriginOf(next) == Some((task, next)) || OriginOf(task) == OriginOf(next)
  {
  }

  lemma OriginUnmoved(env: Environment, s: State, a: Action, t: TaskId)
    requires TasksNumbered(s) && !StepOf(a, t)
    requires t in AfterAction(env, s, a).tasks && OriginOf(AfterAction(env, s, a).tasks[t]).Some?
    ensures TaskAt(s, t) == TaskAt(AfterAction(env, s, a), t)
  {
    OthersUnmoved(env, s, a, t);
  }

  lemma StepTookLater(env: Environment, actions: seq<Action>, n: nat, t: TaskId, before: Task, after: Task, j: nat)
    requires n <= |actions| && StepTook(env, actions[..n], t, before, after, j)
    ensures StepTook(env, actions, t, before, after, j)
  {
    assert actions[..n][..j] == actions[..j];
  }

  /** The data of a task was made by the step that OriginOf names. */
  lemma {:induction false} OriginStep(env: Environment, actions: seq<Action>, t: TaskId, task: Task) returns (j: nat)
    requires TaskAt(Run(env, actions), t) == Some(task) && OriginOf(task).Some?
    ensures StepTook(env, actions, t, OriginOf(task).value.0, OriginOf(task).value.1, j)
  {
    var n := |actions| - 1;
    var s := Run(env, actions[..n]);
    var before := if t in s.tasks then s.tasks[t] else task;
    if StepOf(actions[n], t) {
      StepLeadsTo(env, s, actions[n], t);
      StepOrigin(env, s.shared, before, actions[n].input, task);
    } else {
      RunNumbersTasks(env, actions[..n]);
      OriginUnmoved(env, s, actions[n], t);
    }
    if StepOf(actions[n], t) && OriginOf(task) == Some((before, task)) {
      j := n;
    } else {
      j := OriginStep(env, actions[..n], t, before);
      StepTookLater(env, actions, n, t, OriginOf(task).value.0, OriginOf(task).value.1, j);
    }
  }

  // ---------------------------------------------------------------------------
  // What the steps mean
  // ---------------------------------------------------------------------------

  /** The contract looked at takes this relay's vote (EventBase.VoteIff spells it out). */
  predicate VoteWasDue(env: Environment, input: Input) {
    input.Look? && Process(input.contract.base, env.ourKey, env.kind == TonKind) == Ok(Vote)
  }

  lemma EthDataMeans(env: Environment, s: State, input: Input, t: TaskId, account: Account, init: EthInitData)
    requires Took(env, s, input, t, Examining(account), EthConfiguring(account, init))
    ensures VoteWasDue(env, input) && input.contract.ethInit == Ok(init)
  {
  }

  lemma TonDataMeans(env: Environment, s: State, input: Input, t: TaskId, account: Account, init: TonInitData,
                     round: nat)
    requires Took(env, s, input, t, Examining(account), TonConfiguring(account, init, round))
    ensures VoteWasDue(env, input) && input.contract.tonInit == Ok(init) && input.contract.roundNumber == Ok(round)
  {
  }

  /** The configuration of the event was registered, its chain had an engine, and the request
      is made from both. */
  ghost predicate RequestConfigured(s: Shared, init: EthInitData, chain: ChainId, request: Request) {
    && init.configuration in s.ethConfigurations && s.ethConfigurations[init.configuration].chain == chain
    && chain in s.chains
    && request == Request(init.vote, s.ethConfigurations[init.configuration].emitter,
                          s.ethConfigurations[init.configuration].abi,
                          s.ethConfigurations[init.configuration].blocksToConfirm)
  }

  lemma ConfiguredMeans(env: Environment, s: State, input: Input, t: TaskId, account: Account, init: EthInitData,
                        chain: ChainId, request: Request)
    requires Took(env, s, input, t, EthConfiguring(account, init), Verifying(account, init, chain, request))
    ensures RequestConfigured(s.shared, init, chain, request)
  {
  }

  lemma VerifyMeans(env: Environment, s: State, input: Input, t: TaskId, account: Account, init: EthInitData,
                    chain: ChainId, request: Request, ticket: Ticket)
    requires Took(env, s, input, t, Verifying(account, init, chain, request),
                  Awaiting(account, init, chain, request, ticket))
    ensures chain in s.shared.chains && ticket == EngineOf(s.shared.chains[chain]).engine.issued
    ensures VerifyEffect(s.shared, s.tasks[t]).change == Engine(chain, EthRounds.Verify(request))
  {
  }

  lemma AnswerMeans(env: Environment, s: State, input: Input, t: TaskId, account: Account, init: EthInitData,
                    chain: ChainId, request: Request, ticket: Ticket, verdict: VerificationStatus)
    requires var b := EthBallot(init, chain, request, ticket, verdict);
             Took(env, s, input, t, Awaiting(account, init, chain, request, ticket), TakingObserver(account, b))
    ensures chain in s.shared.chains && (ticket, verdict) in EngineOf(s.shared.chains[chain]).engine.answers
  {
  }

  // ---------------------------------------------------------------------------
  // Engines only go on
  // ---------------------------------------------------------------------------

  ghost predicate Continues(c: Chain, c': Chain) {
    c.maxBlockRange == c'.maxBlockRange && c.height == c'.height && c.actions <= c'.actions
  }

  lemma ChangeContinues(s: Shared, t: TaskId, change: Change, chain: ChainId)
    requires Possible(s, change) && chain in s.chains
    ensures chain in AfterChange(s, t, change).chains
    ensures Continues(s.chains[chain], AfterChange(s, t, change).chains[chain])
  {
  }

  lemma ActionContinues(env: Environment, s: State, a: Action, chain: ChainId)
    requires chain in s.shared.chains
    ensures ChainContinues(s, AfterAction(env, s, a), chain)
  {
    EffectPossible(env, s, a);
    ChangeContinues(s.shared, TaskOf(s, a), EffectOf(env, s, a).change, chain);
  }

  ghost predicate ChainContinues(s: State, s': State, chain: ChainId) {
    chain in s.shared.chains && chain in s'.shared.chains && Continues(s.shared.chains[chain], s'.shared.chains[chain])
  }

  lemma ContinuesOn(s: State, s': State, s'': State, chain: ChainId)
    requires ChainContinues(s, s', chain) && ChainContinues(s', s'', chain)
    ensures ChainContinues(s, s'', chain)
  {
  }

  lemma {:induction false} RunContinues(env: Environment, actions: seq<Action>, n: nat, chain: ChainId)
    requires n <= |actions| && chain in Run(env, actions[..n]).shared.chains
    ensures ChainContinues(Run(env, actions[..n]), Run(env, actions), chain)
    decreases |actions|
  {
    if n == |actions| {
      assert actions[..n] == actions;
    } else {
      var front, a := actions[..|actions| - 1], actions[|actions| - 1];
      assert front[..n] == actions[..n];
      RunContinues(env, front, n, chain);
      ActionContinues(env, Run(env, front), a, chain);
      ContinuesOn(Run(env, actions[..n]), Run(env, front), AfterAction(env, Run(env, front), a), chain);
    }
  }

  lemma {:induction false} CallsGrow(c: Chain, n: nat)
    requires n <= |c.actions|
    ensures EngineOf(c.(actions := c.actions[..n])).calls <= EngineOf(c).calls
    decreases |c.actions|
  {
    var last := |c.actions| - 1;
    if n == |c.actions| {
      assert c.actions[..n] == c.actions;
    } else {
      var front := c.(actions := c.actions[..last]);
      assert front.actions[..n] == c.actions[..n];
      CallsGrow(front, n);
      EngineCallsGrow(c.maxBlockRange, EngineOf(front), c.actions[last]);
    }
  }

  lemma EngineCallsGrow(maxBlockRange: Option<nat>, s: EthRounds.State, a: EthRounds.Action)
    ensures s.calls <= EthRounds.AfterAction(maxBlockRange, s, a).calls
  {
  }

  // ---------------------------------------------------------------------------
  // Votes are justified
  // ---------------------------------------------------------------------------

  ghost predicate Asked(s: State, chain: ChainId, ticket: Ticket, request: Request) {
    && chain in s.shared.chains
    && ticket < |EngineOf(s.shared.chains[chain]).calls|
    && EngineOf(s.shared.chains[chain]).calls[ticket].request == request
  }

  lemma VerifyAsks(c: Chain, request: Request)
    ensures var e, e' := EngineOf(c), EngineOf(Acted(c, EthRounds.Verify(request)));
            e.engine.issued < |e'.calls| && e'.calls[e.engine.issued].request == request
  {
    var c' := Acted(c, EthRounds.Verify(request));
    assert c'.actions[..|c'.actions| - 1] == c.actions;
    EthRounds.RunKeepsVerdicts(c.maxBlockRange, c.height, c.actions);
  }

  lemma StepAsks(env: Environment, s: State, a: Action, t: TaskId, account: Account, init: EthInitData,
                 chain: ChainId, request: Request, ticket: Ticket)
    requires StepOf(a, t)
    requires Took(env, s, a.input, t, Verifying(account, init, chain, request),
                  Awaiting(account, init, chain, request, ticket))
    ensures IssuesNext(s, chain, ticket) && Asked(AfterAction(env, s, a), chain, ticket, request)
  {
    VerifyMeans(env, s, a.input, t, account, init, chain, request, ticket);
    EffectPossible(env, s, a);
    VerifyAsks(s.shared.chains[chain], request);
    assert AfterAction(env, s, a).shared == AfterChange(s.shared, t, Engine(chain, EthRounds.Verify(request)));
  }

  lemma AskedLater(env: Environment, actions: seq<Action>, n: nat, chain: ChainId, ticket: Ticket, request: Request)
    requires n <= |actions| && Asked(Run(env, actions[..n]), chain, ticket, request)
    ensures Asked(Run(env, actions), chain, ticket, request)
  {
    RunContinues(env, actions, n, chain);
    EngineAskedLater(Run(env, actions[..n]).shared.chains[chain], Run(env, actions).shared.chains[chain]);
  }

  lemma EngineAskedLater(c: Chain, c': Chain)
    requires Continues(c, c')
    ensures EngineOf(c).calls <= EngineOf(c').calls
  {
    CallsGrow(c', |c.actions|);
    assert c == c'.(actions := c'.actions[..|c.actions|]);
  }

  /** The answer rests on a round of the engine that read the chain far enough. */
  ghost predicate RoundDecides(e: EthRounds.State, request: Request, ticket: Ticket, verdict: VerificationStatus,
                               r: nat) {
    && ticket < |e.calls| && e.calls[ticket].request == request
    && EthRounds.RoundJustifies(e.rounds, r, e.calls[ticket], verdict)
    && request.vote.eventBlockNumber + request.blocksToConfirm <= e.rounds[r].toBlock <= e.rounds[r].height
    && (verdict == Exists ==>
          e.rounds[r].lookups(RequestId(request)).Fetched?
          && ReceiptProves(request, e.rounds[r].lookups(RequestId(request)).receipt))
  }

  lemma AnswerRests(c: Chain, request: Request, ticket: Ticket, verdict: VerificationStatus) returns (r: nat)
    requires (ticket, verdict) in EngineOf(c).engine.answers
    requires ticket < |EngineOf(c).calls| && EngineOf(c).calls[ticket].request == request
    ensures RoundDecides(EngineOf(c), request, ticket, verdict, r)
  {
    var e := EngineOf(c);
    EthRounds.AnswersAreJustified(c.maxBlockRange, c.height, c.actions);
    EthRounds.RunKeepsScan(c.maxBlockRange, c.height, c.actions);
    assert (ticket, verdict).0 == ticket && (ticket, verdict).1 == verdict;
    r :| EthRounds.RoundJustifies(e.rounds, r, e.calls[ticket], verdict);
    NeverPastHeight(c.maxBlockRange, e, r);
  }

  lemma NeverPastHeight(maxBlockRange: Option<nat>, e: EthRounds.State, r: nat)
    requires EthRounds.ScanInv(maxBlockRange, e) && r < |e.rounds|
    ensures e.rounds[r].toBlock <= e.rounds[r].height
  {
  }

  ghost predicate HasEthBallot(s: State, t: TaskId, account: Account, b: Ballot) {
    b.EthBallot? && TaskAt(s, t) in {Some(TakingObserver(account, b)), Some(Checking(account, b)),
                                     Some(Sending(account, b)), Some(Delivering(account, b))}
  }

  /** Step `j` of the task, examining this account, saw a contract on which the vote was due,
      and took its data from there. */
  ghost predicate VoteDueAt(env: Environment, actions: seq<Action>, t: TaskId, account: Account,
                            init: EthInitData, j: nat) {
    && StepTook(env, actions, t, Examining(account), EthConfiguring(account, init), j)
    && VoteWasDue(env, actions[j].input) && actions[j].input.contract.ethInit == Ok(init)
  }

  /** Step `k` made the request from the registered configuration, whose chain had an engine. */
  ghost predicate ConfiguredAt(env: Environment, actions: seq<Action>, t: TaskId, account: Account, b: Ballot, k: nat)
    requires b.EthBallot?
  {
    && StepTook(env, actions, t, EthConfiguring(account, b.init),
                Verifying(account, b.init, b.chain, b.request), k)
    && RequestConfigured(Run(env, actions[..k]).shared, b.init, b.chain, b.request)
  }

  ghost predicate IssuesNext(s: State, chain: ChainId, ticket: Ticket) {
    chain in s.shared.chains && ticket == EngineOf(s.shared.chains[chain]).engine.issued
  }

  /** Step `l` asked the engine, and got the next ticket that the engine issued. */
  ghost predicate AskedAt(env: Environment, actions: seq<Action>, t: TaskId, account: Account, b: Ballot, l: nat)
    requires b.EthBallot?
  {
    && StepTook(env, actions, t, Verifying(account, b.init, b.chain, b.request),
                Awaiting(account, b.init, b.chain, b.request, b.ticket), l)
    && IssuesNext(Run(env, actions[..l]), b.chain, b.ticket)
    && Asked(Run(env, actions[..l + 1]), b.chain, b.ticket, b.request)
  }

  /** Step `m` took the answer to this ticket, which round `r` of the engine had decided. */
  ghost predicate AnsweredAt(env: Environment, actions: seq<Action>, t: TaskId, account: Account, b: Ballot,
                             m: nat, r: nat)
    requires b.EthBallot?
  {
    && StepTook(env, actions, t, Awaiting(account, b.init, b.chain, b.request, b.ticket), TakingObserver(account, b), m)
    && IsDecided(Run(env, actions[..m]), b, r)
  }

  ghost predicate IsDecided(s: State, b: Ballot, r: nat)
    requires b.EthBallot?
  {
    && b.chain in s.shared.chains
    && RoundDecides(EngineOf(s.shared.chains[b.chain]), b.request, b.ticket, b.verdict, r)
  }

  ghost predicate HasAnswer(s: State, b: Ballot)
    requires b.EthBallot?
  {
    b.chain in s.shared.chains && (b.ticket, b.verdict) in EngineOf(s.shared.chains[b.chain]).engine.answers
  }

  lemma EarlierVoteDue(env: Environment, actions: seq<Action>, n: nat, t: TaskId, account: Account,
                       init: EthInitData, k: nat)
    requires n <= |actions| && VoteDueAt(env, actions[..n], t, account, init, k)
    ensures VoteDueAt(env, actions, t, account, init, k)
  {
    StepTookLater(env, actions, n, t, Examining(account), EthConfiguring(account, init), k);
  }

  lemma EarlierConfigured(env: Environment, actions: seq<Action>, n: nat, t: TaskId, account: Account, b: Ballot,
                          k: nat)
    requires n <= |actions| && b.EthBallot? && ConfiguredAt(env, actions[..n], t, account, b, k)
    ensures ConfiguredAt(env, actions, t, account, b, k)
  {
    StepTookLater(env, actions, n, t, EthConfiguring(account, b.init),
                  Verifying(account, b.init, b.chain, b.request), k);
    assert actions[..n][..k] == actions[..k];
  }

  lemma EarlierAsked(env: Environment, actions: seq<Action>, n: nat, t: TaskId, account: Account, b: Ballot, k: nat)
    requires n <= |actions| && b.EthBallot? && AskedAt(env, actions[..n], t, account, b, k)
    ensures AskedAt(env, actions, t, account, b, k)
  {
    StepTookLater(env, actions, n, t, Verifying(account, b.init, b.chain, b.request),
                  Awaiting(account, b.init, b.chain, b.request, b.ticket), k);
    assert actions[..n][..k] == actions[..k] && actions[..n][..k + 1] == actions[..k + 1];
  }

  lemma VoteDueStep(env: Environment, actions: seq<Action>, t: TaskId, account: Account, init: EthInitData)
    returns (j: nat)
    requires TaskAt(Run(env, actions), t) == Some(EthConfiguring(account, init))
    ensures VoteDueAt(env, actions, t, account, init, j)
  {
    j := OriginStep(env, actions, t, EthConfiguring(account, init));
    EthDataMeans(env, Run(env, actions[..j]), actions[j].input, t, account, init);
  }

  lemma ConfiguredStep(env: Environment, actions: seq<Action>, t: TaskId, account: Account, b: Ballot) returns (k: nat)
    requires b.EthBallot? && TaskAt(Run(env, actions), t) == Some(Verifying(account, b.init, b.chain, b.request))
    ensures ConfiguredAt(env, actions, t, account, b, k)
    ensures TaskAt(Run(env, actions[..k]), t) == Some(EthConfiguring(account, b.init))
  {
    k := OriginStep(env, actions, t, Verifying(account, b.init, b.chain, b.request));
    ConfiguredMeans(env, Run(env, actions[..k]), actions[k].input, t, account, b.init, b.chain, b.request);
  }

  lemma AskedStep(env: Environment, actions: seq<Action>, t: TaskId, account: Account, b: Ballot) returns (l: nat)
    requires b.EthBallot? && TaskAt(Run(env, actions), t) == Some(Decided(account, b))
    ensures AskedAt(env, actions, t, account, b, l)
    ensures TaskAt(Run(env, actions[..l]), t) == Some(Verifying(account, b.init, b.chain, b.request))
  {
    l := OriginStep(env, actions, t, Awaiting(account, b.init, b.chain, b.request, b.ticket));
    StepAsks(env, Run(env, actions[..l]), actions[l], t, account, b.init, b.chain, b.request, b.ticket);
    RunNext(env, actions, l);
  }

  lemma RunNext(env: Environment, actions: seq<Action>, n: nat)
    requires n < |actions|
    ensures Run(env, actions[..n + 1]) == AfterAction(env, Run(env, actions[..n]), actions[n])
  {
    assert actions[..n + 1][..n] == actions[..n];
  }

  lemma AnsweredStep(env: Environment, actions: seq<Action>, t: TaskId, account: Account, b: Ballot) returns (m: nat)
    requires HasEthBallot(Run(env, actions), t, account, b)
    ensures StepTook(env, actions, t, Decided(account, b), TakingObserver(account, b), m)
    ensures TaskAt(Run(env, actions[..m]), t) == Some(Decided(account, b)) && HasAnswer(Run(env, actions[..m]), b)
  {
    m := OriginStep(env, actions, t, TaskAt(Run(env, actions), t).value);
    AnswerMeans(env, Run(env, actions[..m]), actions[m].input, t, account,
                b.init, b.chain, b.request, b.ticket, b.verdict);
  }

  lemma AnswerDecided(env: Environment, actions: seq<Action>, t: TaskId, account: Account, b: Ballot, l: nat)
    returns (r: nat)
    requires b.EthBallot? && AskedAt(env, actions, t, account, b, l) && HasAnswer(Run(env, actions), b)
    ensures IsDecided(Run(env, actions), b, r)
  {
    AskedLater(env, actions, l + 1, b.chain, b.ticket, b.request);
    r := AnswerRests(Run(env, actions).shared.chains[b.chain], b.request, b.ticket, b.verdict);
  }

  /** The two steps behind a task that is about to ask the engine. */
  lemma BeforeAsking(env: Environment, actions: seq<Action>, t: TaskId, account: Account, b: Ballot)
    returns (vote: nat, configure: nat)
    requires b.EthBallot? && TaskAt(Run(env, actions), t) == Some(Verifying(account, b.init, b.chain, b.request))
    ensures vote < configure < |actions|
    ensures VoteDueAt(env, actions, t, account, b.init, vote) && ConfiguredAt(env, actions, t, account, b, configure)
  {
    configure := ConfiguredStep(env, actions, t, account, b);
    vote := VoteDueStep(env, actions[..configure], t, account, b.init);
    EarlierVoteDue(env, actions, configure, t, account, b.init, vote);
  }

  /** In every run, behind each vote on an EVM event there are four steps of its task, in
      this order: examining the account it saw a contract on which its vote was due; it found
      the configuration and the engine of the chain, and made the request from them; it asked
      the engine and got this ticket; and it took an answer to the ticket that a round of the
      engine decided. A confirm rests on a successful receipt that proves the request, read at
      a height past the blocks to confirm. */
  lemma EthVoteIsJustified(env: Environment, actions: seq<Action>, t: TaskId, account: Account, b: Ballot)
    returns (vote: nat, configure: nat, ask: nat, answer: nat, r: nat)
    requires HasEthBallot(Run(env, actions), t, account, b)
    ensures vote < configure < ask < answer < |actions|
    ensures VoteDueAt(env, actions, t, account, b.init, vote)
    ensures ConfiguredAt(env, actions, t, account, b, configure)
    ensures AskedAt(env, actions, t, account, b, ask)
    ensures AnsweredAt(env, actions, t, account, b, answer, r)
  {
    answer := AnsweredStep(env, actions, t, account, b);
    ask := AskedStep(env, actions[..answer], t, account, b);
    r := AnswerDecided(env, actions[..answer], t, account, b, ask);
    EarlierAsked(env, actions, answer, t, account, b, ask);
    assert actions[..answer][..ask] == actions[..ask];
    vote, configure := BeforeAsking(env, actions[..ask], t, account, b);
    EarlierConfigured(env, actions, ask, t, account, b, configure);
    EarlierVoteDue(env, actions, ask, t, account, b.init, vote);
  }

  ghost predicate HasTonBallot(s: State, t: TaskId, account: Account, b: Ballot) {
    b.TonBallot? && TaskAt(s, t) in {Some(TakingObserver(account, b)), Some(Checking(account, b)),
                                     Some(Sending(account, b)), Some(Delivering(account, b))}
  }

  ghost predicate TonVoteDueAt(env: Environment, actions: seq<Action>, t: TaskId, account: Account, b: Ballot, j: nat)
    requires b.TonBallot?
  {
    && StepTook(env, actions, t, Examining(account), TonConfiguring(account, b.tonInit, b.round), j)
    && VoteWasDue(env, actions[j].input)
    && actions[j].input.contract.tonInit == Ok(b.tonInit) && actions[j].input.contract.roundNumber == Ok(b.round)
  }

  ghost predicate TonDecidedAt(env: Environment, actions: seq<Action>, t: TaskId, account: Account, b: Ballot, k: nat)
    requires b.TonBallot?
  {
    && StepTook(env, actions, t, TonConfiguring(account, b.tonInit, b.round), TakingObserver(account, b), k)
    && SignsAsConfigured(Run(env, actions[..k]).shared, b)
  }

  ghost predicate SignsAsConfigured(s: Shared, b: Ballot)
    requires b.TonBallot?
  {
    && b.tonInit.configuration in s.tonConfigurations
    && b.signed == s.tonConfigurations[b.tonInit.configuration].mapEvent(b.tonInit, b.round)
  }

  /** The same for a vote on a TON event: due, and signed, or rejected, as the registered
      configuration maps its data. */
  lemma TonVoteIsJustified(env: Environment, actions: seq<Action>, t: TaskId, account: Account, b: Ballot)
    returns (vote: nat, decide: nat)
    requires HasTonBallot(Run(env, actions), t, account, b)
    ensures vote < decide < |actions|
    ensures TonVoteDueAt(env, actions, t, account, b, vote)
    ensures TonDecidedAt(env, actions, t, account, b, decide)
  {
    decide := OriginStep(env, actions, t, TaskAt(Run(env, actions), t).value);
    TonDecisionMeans(env, Run(env, actions[..decide]), actions[decide].input, t, account, b);
    vote := OriginStep(env, actions[..decide], t, Decided(account, b));
    TonDataMeans(env, Run(env, actions[..decide][..vote]), actions[vote].input, t, account, b.tonInit, b.round);
    StepTookLater(env, actions, decide, t, Examining(account), Decided(account, b), vote);
  }

  lemma TonDecisionMeans(env: Environment, s: State, input: Input, t: TaskId, account: Account, b: Ballot)
    requires b.TonBallot? && Took(env, s, input, t, Decided(account, b), TakingObserver(account, b))
    ensures SignsAsConfigured(s.shared, b)
  {
  }
}
