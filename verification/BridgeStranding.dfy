/**
 When an event is left without a vote (src/engine/bridge/mod.rs).

 The flag of `start_processing` is never cleared, so the one voter of an insertion decides:
 if it ends without a delivered vote, the event stays pending with nobody to vote for it.
 */
module BridgeStranding {
  import opened Wrappers
  import opened ShardUtils
  import opened EventBase
  import opened BridgeEvents
  import opened EthEvents
  import opened BridgeRuns
  import opened BridgeVoters

  // ---------------------------------------------------------------------------
  // When voting is over
  // ---------------------------------------------------------------------------

  /** The relay keys of an unstarted event arrive, and the task spawned for them starts. */
  function VotingContinuation(env: Environment, s: State, account: Account): seq<Action> {
    [Handle(account, ReceiveRoundRelays({env.ourKey}), Pending), Step(s.nextTask, Proceed)]
  }

  lemma UnstartedCanBeVoted(env: Environment, s: State, account: Account)
    requires MayStart(s.shared.events, account) && s.nextTask !in s.tasks
    ensures var more := VotingContinuation(env, s, account);
            var s' := AfterAction(env, AfterAction(env, s, more[0]), more[1]);
            !NobodyVotes(s', s.shared.events.pending[account].generation)
  {
    var more := VotingContinuation(env, s, account);
    assert ReactionTo(env.kind, env.ourKey, more[0].event, more[0].status) == StartVoting;
    var s1 := AfterAction(env, s, more[0]);
    assert s1.shared == s.shared && s1.tasks == s.tasks[s.nextTask := Starting(account)];
    var s2 := AfterAction(env, s1, more[1]);
    assert s2.tasks[s.nextTask] == Examining(account);
    assert s2.shared.voters[s.nextTask] == s.shared.events.pending[account].generation;
  }

  lemma RunOfTwo(env: Environment, actions: seq<Action>, a: Action, b: Action)
    ensures Run(env, actions + [a, b]) == AfterAction(env, AfterAction(env, Run(env, actions), a), b)
  {
    assert actions + [a, b] == (actions + [a]) + [b];
    RunOf(env, actions + [a], b);
    RunOf(env, actions, a);
  }

  /** Voting for an insertion is over, its flag used up and its voter gone, exactly when no
      continuation of the run has a voter for it. */
  lemma VotingIsOverIff(env: Environment, actions: seq<Action>, g: Generation)
    requires g < |Run(env, actions).shared.events.inserted|
    ensures VotingIsOver(Run(env, actions), g)
       <==> forall more: seq<Action> :: NobodyVotes(Run(env, actions + more), g)
  {
    var s := Run(env, actions);
    if VotingIsOver(s, g) {
      forall more: seq<Action> ensures NobodyVotes(Run(env, actions + more), g) {
        EndedVoterIsLast(env, actions, more, g);
      }
    } else {
      assert actions + [] == actions;
      if NobodyVotes(s, g) {
        var account :| account in s.shared.events.pending && s.shared.events.pending[account].generation == g
          && !s.shared.events.pending[account].processingStarted;
        var more := VotingContinuation(env, s, account);
        RunNumbersTasks(env, actions);
        UnstartedCanBeVoted(env, s, account);
        RunOfTwo(env, actions, more[0], more[1]);
        assert !NobodyVotes(Run(env, actions + more), g);
      } else {
        assert !NobodyVotes(Run(env, actions + []), g);
      }
    }
  }

  // ---------------------------------------------------------------------------
  // What ends a voter
  // ---------------------------------------------------------------------------

  /** The contract does not let the voter go on to a vote or a removal: it is initializing,
      or one of the getters that are needed fails. */
  predicate StallsOn(env: Environment, c: Contract) {
    match Process(c.base, env.ourKey, env.kind == TonKind)
    case Ok(Nop) => true
    case Err(_) => true
    case Ok(Remove) => false
    case Ok(Vote) => if env.kind == EthKind then c.ethInit.Err? else c.roundNumber.Err? || c.tonInit.Err?
  }

  /** What the voter meets leaves the event without a vote: no contract state, a contract it
      stalls on, or a message that could not be signed, queued, broadcast or awaited. */
  predicate Strands(env: Environment, task: Task, input: Input) {
    match task
    case Examining(_) => input == Failure || (input.Look? && StallsOn(env, input.contract))
    case Sending(_, _) => input == Failure
    case Delivering(_, _) => input == Failure
    case _ => false
  }

  predicate Delivers(task: Task, input: Input) {
    task.Delivering? && input == Delivered
  }

  lemma VoterStep(env: Environment, s: Shared, task: Task, input: Input)
    requires IsVoter(task) && task.account in s.events.pending
    ensures var e := StepEffect(env, s, task, input);
            && (e.next.None? <==> Strands(env, task, input) || Delivers(task, input))
            && (e.next.None? ==> e.change == Nothing)
            && (e.next.Some? ==>
                  e.next.value.account == task.account && (IsVoter(e.next.value) || e.next.value.Removing?))
  {
  }

  /** The task is the voter of a pending event. */
  ghost predicate VotesForPending(s: State, t: TaskId, account: Account) {
    && t in s.tasks && IsVoter(s.tasks[t]) && s.tasks[t].account == account && t in s.shared.voters
    && account in s.shared.events.pending && s.shared.events.pending[account].generation == s.shared.voters[t]
  }

  /** The voter is gone and the event still pending, with its flag set. */
  ghost predicate LeavesBehind(s: State, t: TaskId, account: Account) {
    && t !in s.tasks && account in s.shared.events.pending && s.shared.events.pending[account].processingStarted
  }

  lemma AppliedToShared(s: State, t: TaskId, e: Effect)
    requires Possible(s.shared, e.change)
    ensures Applied(s, t, e).shared == AfterChange(s.shared, t, e.change)
    ensures TaskAt(Applied(s, t, e), t) == e.next
  {
  }

  /** The voter's step leaves the event behind exactly when what it met strands it, or its
      vote was delivered; either way nobody votes for this insertion any more. */
  lemma VoterEndsIff(env: Environment, actions: seq<Action>, t: TaskId, account: Account, input: Input)
    requires VotesForPending(Run(env, actions), t, account)
    ensures var s := Run(env, actions);
            var s' := AfterAction(env, s, Step(t, input));
            && (LeavesBehind(s', t, account) <==> Strands(env, s.tasks[t], input) || Delivers(s.tasks[t], input))
            && (LeavesBehind(s', t, account) ==> VotingIsOver(s', s.shared.voters[t]))
  {
    var s, a := Run(env, actions), Step(t, input);
    RunKeepsStart(env, actions);
    VoterStep(env, s.shared, s.tasks[t], input);
    EffectPossible(env, s, a);
    AppliedToShared(s, t, EffectOf(env, s, a));
    StartedByVoter(s, t, account);
    if Strands(env, s.tasks[t], input) || Delivers(s.tasks[t], input) {
      VotingOver(s, t, account, AfterAction(env, s, a));
    }
  }

  lemma StartedByVoter(s: State, t: TaskId, account: Account)
    requires StartInv(s) && VotesForPending(s, t, account)
    ensures s.shared.events.pending[account].processingStarted
  {
  }

  lemma VotingOver(s: State, t: TaskId, account: Account, s': State)
    requires StartInv(s) && VotesForPending(s, t, account)
    requires s'.shared == s.shared && s'.tasks == s.tasks - {t}
    ensures VotingIsOver(s', s.shared.voters[t])
  {
    var g := s.shared.voters[t];
    StartedByVoter(s, t, account);
    forall a | a in s.shared.events.pending && s.shared.events.pending[a].generation == g
      ensures s.shared.events.pending[a].processingStarted
    {
      assert IsInsertion(s.shared, g, a) && IsInsertion(s.shared, g, account);
    }
    forall u | u in s'.tasks && IsVoter(s'.tasks[u]) && u in s'.shared.voters ensures s'.shared.voters[u] != g {
      assert u != t;
    }
  }

  // ---------------------------------------------------------------------------
  // Over whole runs
  // ---------------------------------------------------------------------------

  /** The task passed `start_processing` for this insertion, and still votes. */
  ghost predicate VotesFor(s: State, t: TaskId, g: Generation) {
    t in s.tasks && IsVoter(s.tasks[t]) && t in s.shared.voters && s.shared.voters[t] == g
  }

  /** Step `j` was a step of the voter, and what it met strands the event. */
  ghost predicate StrandedAt(env: Environment, actions: seq<Action>, g: Generation, t: TaskId, j: nat) {
    && j < |actions| && StepOf(actions[j], t)
    && VotesFor(Run(env, actions[..j]), t, g)
    && Strands(env, Run(env, actions[..j]).tasks[t], actions[j].input)
  }

  /** Step `j` was a step of the voter, and its message was delivered. */
  ghost predicate DeliveredAt(env: Environment, actions: seq<Action>, g: Generation, t: TaskId, j: nat) {
    && j < |actions| && StepOf(actions[j], t)
    && VotesFor(Run(env, actions[..j]), t, g)
    && Delivers(Run(env, actions[..j]).tasks[t], actions[j].input)
  }

  ghost predicate EndedAt(env: Environment, actions: seq<Action>, g: Generation, t: TaskId, j: nat) {
    StrandedAt(env, actions, g, t, j) || DeliveredAt(env, actions, g, t, j)
  }

  ghost predicate IsGone(s: State, t: TaskId, g: Generation) {
    t !in s.tasks && t in s.shared.voters && s.shared.voters[t] == g
  }

  /** The voter is at work, or is about to remove the event. */
  ghost predicate IsBusy(s: State, t: TaskId, account: Account, g: Generation) {
    && t in s.tasks && s.tasks[t].account == account && (IsVoter(s.tasks[t]) || s.tasks[t].Removing?)
    && t in s.shared.voters && s.shared.voters[t] == g
  }

  ghost predicate HasEnded(env: Environment, actions: seq<Action>, g: Generation, t: TaskId) {
    IsGone(Run(env, actions), t, g) && exists j :: EndedAt(env, actions, g, t, j)
  }

  lemma EndedLater(env: Environment, actions: seq<Action>, a: Action, g: Generation, t: TaskId, j: nat)
    requires EndedAt(env, actions, g, t, j)
    ensures EndedAt(env, actions + [a], g, t, j)
  {
    assert (actions + [a])[..j] == actions[..j];
  }

  lemma EndedNow(env: Environment, actions: seq<Action>, a: Action, g: Generation, t: TaskId)
    requires StepOf(a, t) && VotesFor(Run(env, actions), t, g)
    requires Strands(env, Run(env, actions).tasks[t], a.input) || Delivers(Run(env, actions).tasks[t], a.input)
    ensures EndedAt(env, actions + [a], g, t, |actions|)
  {
    assert (actions + [a])[..|actions|] == actions;
  }

  /** A task that is gone stays gone, and so does what it passed for. */
  lemma GoneStays(env: Environment, s: State, a: Action, t: TaskId, g: Generation)
    requires StartInv(s) && IsGone(s, t, g)
    ensures IsGone(AfterAction(env, s, a), t, g)
  {
    var e := EffectOf(env, s, a);
    EffectPossible(env, s, a);
    EffectPromotes(env, s, a);
    AppliedToShared(s, TaskOf(s, a), e);
    VotersAfter(s.shared, TaskOf(s, a), e.change);
  }

  lemma GoneAfterStep(env: Environment, actions: seq<Action>, a: Action, t: TaskId, g: Generation)
    requires IsGone(Run(env, actions), t, g)
    ensures IsGone(Run(env, actions + [a]), t, g)
  {
    RunKeepsStart(env, actions);
    GoneStays(env, Run(env, actions), a, t, g);
    RunOf(env, actions, a);
  }

  lemma {:induction false} GoneForGood(env: Environment, actions: seq<Action>, n: nat, t: TaskId, g: Generation)
    requires n <= |actions| && IsGone(Run(env, actions[..n]), t, g)
    ensures IsGone(Run(env, actions), t, g)
    decreases |actions|
  {
    if n == |actions| {
      assert actions[..n] == actions;
    } else {
      var front, a := actions[..|actions| - 1], actions[|actions| - 1];
      assert front[..n] == actions[..n] && actions == front + [a];
      GoneForGood(env, front, n, t, g);
      GoneAfterStep(env, front, a, t, g);
    }
  }

  lemma EndingStep(env: Environment, s: State, t: TaskId, input: Input, g: Generation)
    requires StartInv(s) && VotesFor(s, t, g)
    requires Strands(env, s.tasks[t], input) || Delivers(s.tasks[t], input)
    ensures IsGone(AfterAction(env, s, Step(t, input)), t, g)
  {
    EffectPossible(env, s, Step(t, input));
    EndsWithNothing(env, s.shared, s.tasks[t], input);
    AppliedToShared(s, t, EffectOf(env, s, Step(t, input)));
  }

  lemma EndsWithNothing(env: Environment, s: Shared, task: Task, input: Input)
    requires Strands(env, task, input) || Delivers(task, input)
    ensures StepEffect(env, s, task, input) == Effect(Nothing, None)
  {
  }

  lemma EndedIsGone(env: Environment, actions: seq<Action>, g: Generation, t: TaskId, j: nat)
    requires EndedAt(env, actions, g, t, j)
    ensures IsGone(Run(env, actions), t, g)
  {
    RunKeepsStart(env, actions[..j]);
    EndingStep(env, Run(env, actions[..j]), t, actions[j].input, g);
    assert actions[..j + 1] == actions[..j] + [actions[j]];
    RunOf(env, actions[..j], actions[j]);
    GoneForGood(env, actions, j + 1, t, g);
  }

  /** A voter ends once. */
  lemma EndsOnce(env: Environment, actions: seq<Action>, g: Generation, t: TaskId, i: nat, j: nat)
    requires EndedAt(env, actions, g, t, i) && EndedAt(env, actions, g, t, j)
    ensures i == j
  {
    if i < j {
      EndsBefore(env, actions, g, t, i, j);
    } else if j < i {
      EndsBefore(env, actions, g, t, j, i);
    }
  }

  lemma EndsBefore(env: Environment, actions: seq<Action>, g: Generation, t: TaskId, i: nat, j: nat)
    requires EndedAt(env, actions, g, t, i) && EndedAt(env, actions, g, t, j)
    ensures i >= j
  {
    if i < j {
      assert actions[..j][..i] == actions[..i] && actions[..j][i] == actions[i];
      EndedIsGone(env, actions[..j], g, t, i);
      assert false;
    }
  }

  // ---------------------------------------------------------------------------
  // The fate of a started event
  // ---------------------------------------------------------------------------

  /** The voter of a pending event that was started: at work, or ended at some step. */
  ghost predicate HasFate(env: Environment, actions: seq<Action>, account: Account) {
    var s := Run(env, actions);
    account in s.shared.events.pending && s.shared.events.pending[account].processingStarted ==>
      exists t :: IsBusy(s, t, account, s.shared.events.pending[account].generation)
                  || HasEnded(env, actions, s.shared.events.pending[account].generation, t)
  }

  /** An entry that is started after a step was so before it, or the step starts it. */
  lemma StartedEntry(s: Shared, t: TaskId, c: Change, account: Account)
    requires Possible(s, c)
    requires account in AfterChange(s, t, c).events.pending
    requires AfterChange(s, t, c).events.pending[account].processingStarted
    ensures c != Start(account) ==>
              account in s.events.pending && s.events.pending[account] == AfterChange(s, t, c).events.pending[account]
    ensures c == Start(account) ==>
              && account in s.events.pending && t in AfterChange(s, t, c).voters
              && AfterChange(s, t, c).events.pending[account].generation == s.events.pending[account].generation
              && AfterChange(s, t, c).voters[t] == s.events.pending[account].generation
  {
  }

  lemma BusyStep(env: Environment, s: State, a: Action, t: TaskId, account: Account, g: Generation)
    requires StartInv(s) && IsBusy(s, t, account, g) && account in s.shared.events.pending
    requires account in AfterAction(env, s, a).shared.events.pending
    ensures IsBusy(AfterAction(env, s, a), t, account, g)
         || (&& StepOf(a, t) && VotesFor(s, t, g)
             && (Strands(env, s.tasks[t], a.input) || Delivers(s.tasks[t], a.input)))
  {
    var e, u := EffectOf(env, s, a), TaskOf(s, a);
    EffectPossible(env, s, a);
    EffectPromotes(env, s, a);
    AppliedToShared(s, u, e);
    VotersAfter(s.shared, u, e.change);
    if StepOf(a, t) {
      if IsVoter(s.tasks[t]) {
        VoterStep(env, s.shared, s.tasks[t], a.input);
      }
    }
  }

  lemma FateStep(env: Environment, actions: seq<Action>, a: Action, account: Account)
    requires StartInv(Run(env, actions)) && HasFate(env, actions, account)
    ensures HasFate(env, actions + [a], account)
  {
    var s, s' := Run(env, actions), AfterAction(env, Run(env, actions), a);
    RunOf(env, actions, a);
    if account in s'.shared.events.pending && s'.shared.events.pending[account].processingStarted {
      var e, u, g := EffectOf(env, s, a), TaskOf(s, a), s'.shared.events.pending[account].generation;
      EffectPossible(env, s, a);
      AppliedToShared(s, u, e);
      StartedEntry(s.shared, u, e.change, account);
      if e.change == Start(account) {
        EffectPromotes(env, s, a);
        assert IsBusy(s', u, account, g);
      } else {
        var t :| IsBusy(s, t, account, g) || HasEnded(env, actions, g, t);
        FateOf(env, actions, a, account, t, g);
      }
    }
  }

  lemma FateOf(env: Environment, actions: seq<Action>, a: Action, account: Account, t: TaskId, g: Generation)
    requires StartInv(Run(env, actions))
    requires IsBusy(Run(env, actions), t, account, g) || HasEnded(env, actions, g, t)
    requires account in Run(env, actions).shared.events.pending
    requires account in AfterAction(env, Run(env, actions), a).shared.events.pending
    ensures IsBusy(AfterAction(env, Run(env, actions), a), t, account, g) || HasEnded(env, actions + [a], g, t)
  {
    var s := Run(env, actions);
    RunOf(env, actions, a);
    if HasEnded(env, actions, g, t) {
      GoneStays(env, s, a, t, g);
      var j :| EndedAt(env, actions, g, t, j);
      EndedLater(env, actions, a, g, t, j);
    } else {
      BusyStep(env, s, a, t, account, g);
      if !IsBusy(AfterAction(env, s, a), t, account, g) {
        EndingStep(env, s, t, a.input, g);
        EndedNow(env, actions, a, g, t);
      }
    }
  }

  lemma {:induction false} RunHasFate(env: Environment, actions: seq<Action>, account: Account)
    ensures HasFate(env, actions, account)
  {
    if actions != [] {
      var front, a := actions[..|actions| - 1], actions[|actions| - 1];
      RunHasFate(env, front, account);
      RunKeepsStart(env, front);
      FateStep(env, front, a, account);
      assert actions == front + [a];
    }
  }

  /** Pending, flagged, and without the task that passed for it. */
  ghost predicate IsLeftBehind(s: State, account: Account) {
    && account in s.shared.events.pending && s.shared.events.pending[account].processingStarted
    && forall t :: t in s.shared.voters && s.shared.voters[t] == s.shared.events.pending[account].generation
         ==> t !in s.tasks
  }

  ghost predicate WasDelivered(env: Environment, actions: seq<Action>, g: Generation) {
    exists t, j :: DeliveredAt(env, actions, g, t, j)
  }

  ghost predicate WasStranded(env: Environment, actions: seq<Action>, g: Generation) {
    exists t, j :: StrandedAt(env, actions, g, t, j)
  }

  /** In every run a pending event is left behind without a delivered vote exactly when its
      voter met, in one of its steps, something that strands it. */
  lemma LeftWithoutVoteIff(env: Environment, actions: seq<Action>, account: Account)
    requires account in Run(env, actions).shared.events.pending
    ensures var s := Run(env, actions);
            var g := s.shared.events.pending[account].generation;
            IsLeftBehind(s, account) && !WasDelivered(env, actions, g) <==> WasStranded(env, actions, g)
  {
    var s := Run(env, actions);
    var g := s.shared.events.pending[account].generation;
    RunKeepsStart(env, actions);
    if IsLeftBehind(s, account) && !WasDelivered(env, actions, g) {
      RunHasFate(env, actions, account);
      var t :| IsBusy(s, t, account, g) || HasEnded(env, actions, g, t);
      var j :| EndedAt(env, actions, g, t, j);
      assert StrandedAt(env, actions, g, t, j);
    }
    if WasStranded(env, actions, g) {
      var t, j :| StrandedAt(env, actions, g, t, j);
      StrandedIsFinal(env, actions, account, g, t, j);
    }
  }

  lemma StrandedIsFinal(env: Environment, actions: seq<Action>, account: Account, g: Generation, t: TaskId, j: nat)
    requires account in Run(env, actions).shared.events.pending
    requires Run(env, actions).shared.events.pending[account].generation == g
    requires StrandedAt(env, actions, g, t, j)
    ensures IsLeftBehind(Run(env, actions), account) && !WasDelivered(env, actions, g)
  {
    EndedIsGone(env, actions, g, t, j);
    RunKeepsStart(env, actions);
    if WasDelivered(env, actions, g) {
      var u, i :| DeliveredAt(env, actions, g, u, i);
      EndedIsGone(env, actions, g, u, i);
      assert u == t;
      EndsOnce(env, actions, g, t, i, j);
    }
  }

  // ---------------------------------------------------------------------------
  // A run in which it happens
  // ---------------------------------------------------------------------------

  /** An event whose contract waits for its relay keys. */
  function Uninitialized(vote: VoteData): Contract {
    Contract.Contract(EventContract(Ok(Initializing), Ok({}), Ok(SUPPORTED_API_VERSION), 0),
                      Ok(EthInitData(0, vote)), Ok(TonInitData(0, [])), Ok(0))
  }

  /** The start-up scan finds the event while it is initializing, and its voter meets Nop. */
  function StrandingRun(account: Account, c: Contract, eth: EthConfiguration, ton: TonConfiguration): seq<Action> {
    [Reconfigure(map[0 := eth], map[0 := ton]), Found(account, c), Step(0, Proceed), Step(0, Proceed), Step(0, Look(c))]
  }

  /** So a pending event may stay without a vote: no task is left, and by EndedVoterIsLast
      none will vote for it while it stays, not even when its relay keys arrive. */
  lemma EventsCanStrand(env: Environment, account: Account, vote: VoteData, eth: EthConfiguration,
                        ton: TonConfiguration)
    ensures var s := Run(env, StrandingRun(account, Uninitialized(vote), eth, ton));
            IsLeftBehind(s, account) && s.tasks == map[] && VotingIsOver(s, s.shared.events.pending[account].generation)
  {
    var c := Uninitialized(vote);
    var all := StrandingRun(account, c, eth, ton);
    var s := StrandedFirst(env, account, vote, eth, ton);
    assert all[..4] == all[..3] + [all[3]] && all == all[..4] + [all[4]];
    RunOf(env, all[..3], all[3]);
    RunOf(env, all[..4], all[4]);
    StrandedLast(env, s, account, c);
  }

  lemma StrandedFirst(env: Environment, account: Account, vote: VoteData, eth: EthConfiguration, ton: TonConfiguration)
    returns (s: State)
    ensures s == Run(env, StrandingRun(account, Uninitialized(vote), eth, ton)[..3])
    ensures s.shared.events == CountedUp(Inserted(NO_EVENTS, account)) && s.tasks == map[0 := Starting(account)]
    ensures s.nextTask == 1 && s.shared.voters == map[]
  {
    var c := Uninitialized(vote);
    var all := StrandingRun(account, c, eth, ton);
    assert all[..1] == [] + [all[0]] && all[..2] == all[..1] + [all[1]] && all[..3] == all[..2] + [all[2]];
    RunOf(env, [], all[0]);
    RunOf(env, all[..1], all[1]);
    RunOf(env, all[..2], all[2]);
    var s1 := AfterAction(env, Begun(env), all[0]);
    assert s1.tasks == map[] && IsKnownEvent(env, s1.shared, c);
    var s2 := AfterAction(env, s1, all[1]);
    assert s2.tasks == map[0 := CountingUp(account, Update)];
    s := AfterAction(env, s2, all[2]);
  }

  lemma StrandedLast(env: Environment, s: State, account: Account, c: Contract)
    requires s.shared.events == CountedUp(Inserted(NO_EVENTS, account)) && s.tasks == map[0 := Starting(account)]
    requires s.nextTask == 1 && s.shared.voters == map[]
    requires c.base.status == Ok(Initializing)
    ensures var s' := AfterAction(env, AfterAction(env, s, Step(0, Proceed)), Step(0, Look(c)));
            account in s'.shared.events.pending && s'.tasks == map[]
            && VotingIsOver(s', s'.shared.events.pending[account].generation)
  {
    var s1 := AfterAction(env, s, Step(0, Proceed));
    assert s1.tasks == map[0 := Examining(account)];
    var s2 := AfterAction(env, s1, Step(0, Look(c)));
    assert s2.tasks == map[];
  }
}
