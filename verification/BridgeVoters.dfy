/**
 Who may vote: at most one task for each insertion of an event (src/engine/bridge/mod.rs).
 */
module BridgeVoters {
  import opened Words
  import opened Wrappers
  import opened ShardUtils
  import opened BridgeEvents
  import opened BridgeRuns

  /** On its way to `start_processing`. */
  predicate IsAspiring(task: Task) {
    task.CountingUp? || task.Preprocessing? || task.Starting?
  }

  /** Past `start_processing`, and neither done nor only removing. */
  predicate IsVoter(task: Task) {
    task.Examining? || task.EthConfiguring? || task.TonConfiguring? || task.Verifying? || task.Awaiting?
    || task.TakingObserver? || task.Checking? || task.Sending? || task.Delivering?
  }

  /** A task becomes a voter only by starting, and starting is all that makes one. */
  ghost predicate Promotes(before: Option<Task>, e: Effect) {
    && (e.change.Start? ==>
          before == Some(Starting(e.change.account)) && e.next == Some(Examining(e.change.account)))
    && (e.next.Some? && IsAspiring(e.next.value) ==> before.None? || IsAspiring(before.value))
    && (e.next.Some? && IsVoter(e.next.value) && !e.change.Start? ==>
          before.Some? && IsVoter(before.value) && e.next.value.account == before.value.account)
  }

  lemma EffectPromotes(env: Environment, s: State, a: Action)
    requires TasksNumbered(s)
    ensures Promotes(TaskAt(s, TaskOf(s, a)), EffectOf(env, s, a))
  {
  }

  ghost predicate IsInsertion(s: Shared, g: Generation, account: Account) {
    g < |s.events.inserted| && s.events.inserted[g] == account
  }

  ghost predicate NobodyStarted(s: Shared, g: Generation) {
    forall t :: t in s.voters ==> s.voters[t] != g
  }

  /** Each entry has its own insertion, and unless its flag is set nobody started for it. */
  ghost predicate EntriesInv(s: Shared) {
    forall a :: a in s.events.pending ==>
      && IsInsertion(s, s.events.pending[a].generation, a)
      && (!s.events.pending[a].processingStarted ==> NobodyStarted(s, s.events.pending[a].generation))
  }

  ghost predicate OnePerInsertion(voters: map<TaskId, Generation>) {
    forall t, u :: t in voters && u in voters && voters[t] == voters[u] ==> t == u
  }

  ghost predicate VotersInv(s: Shared) {
    && (forall t :: t in s.voters ==> s.voters[t] < |s.events.inserted|)
    && OnePerInsertion(s.voters)
  }

  /** A task on its way has not passed yet, and a voter passed for an insertion of its account. */
  ghost predicate TaskInv(s: Shared, t: TaskId, task: Task) {
    && (IsAspiring(task) ==> t !in s.voters)
    && (IsVoter(task) ==> t in s.voters && IsInsertion(s, s.voters[t], task.account))
  }

  ghost predicate TasksInv(s: State) {
    && TasksNumbered(s)
    && (forall t :: t in s.shared.voters ==> t < s.nextTask)
    && (forall t :: t in s.tasks ==> TaskInv(s.shared, t, s.tasks[t]))
  }

  ghost predicate StartInv(s: State) {
    EntriesInv(s.shared) && VotersInv(s.shared) && TasksInv(s)
  }

  /** What a change does to insertions and voters. */
  lemma VotersAfter(s: Shared, t: TaskId, c: Change)
    requires Possible(s, c)
    ensures s.events.inserted <= AfterChange(s, t, c).events.inserted
    ensures AfterChange(s, t, c).voters
         == if c.Start? then s.voters[t := s.events.pending[c.account].generation] else s.voters
  {
  }

  lemma EntryKept(s: Shared, t: TaskId, c: Change, a: Account)
    requires EntriesInv(s) && VotersInv(s) && Possible(s, c)
    requires a in AfterChange(s, t, c).events.pending
    ensures var s' := AfterChange(s, t, c);
            && IsInsertion(s', s'.events.pending[a].generation, a)
            && (!s'.events.pending[a].processingStarted ==> NobodyStarted(s', s'.events.pending[a].generation))
  {
    VotersAfter(s, t, c);
    if a in s.events.pending {
      assert IsInsertion(s, s.events.pending[a].generation, a);
    }
    if c.Start? {
      assert IsInsertion(s, s.events.pending[c.account].generation, c.account);
    }
  }

  lemma EntriesKept(s: Shared, t: TaskId, c: Change)
    requires EntriesInv(s) && VotersInv(s) && Possible(s, c)
    ensures EntriesInv(AfterChange(s, t, c))
  {
    var s' := AfterChange(s, t, c);
    forall a | a in s'.events.pending
      ensures IsInsertion(s', s'.events.pending[a].generation, a)
      ensures !s'.events.pending[a].processingStarted ==> NobodyStarted(s', s'.events.pending[a].generation)
    {
      EntryKept(s, t, c, a);
    }
  }

  lemma OneMoreVoter(voters: map<TaskId, Generation>, t: TaskId, g: Generation)
    requires OnePerInsertion(voters) && t !in voters && forall u :: u in voters ==> voters[u] != g
    ensures OnePerInsertion(voters[t := g])
  {
  }

  lemma VotersKept(s: Shared, t: TaskId, c: Change)
    requires EntriesInv(s) && VotersInv(s) && Possible(s, c) && (c.Start? ==> t !in s.voters)
    ensures VotersInv(AfterChange(s, t, c))
  {
    VotersAfter(s, t, c);
    if c.Start? {
      var g := s.events.pending[c.account].generation;
      assert IsInsertion(s, g, c.account) && NobodyStarted(s, g);
      OneMoreVoter(s.voters, t, g);
    }
  }

  lemma TaskKept(s: Shared, t: TaskId, c: Change, u: TaskId, task: Task)
    requires Possible(s, c) && TaskInv(s, u, task) && (c.Start? ==> u != t)
    ensures TaskInv(AfterChange(s, t, c), u, task)
  {
    VotersAfter(s, t, c);
  }

  lemma ActorKept(s: Shared, t: TaskId, before: Option<Task>, e: Effect)
    requires EntriesInv(s) && Possible(s, e.change) && Promotes(before, e) && e.next.Some?
    requires before.Some? ==> TaskInv(s, t, before.value)
    requires before.None? ==> t !in s.voters
    ensures TaskInv(AfterChange(s, t, e.change), t, e.next.value)
  {
    VotersAfter(s, t, e.change);
    if e.change.Start? {
      assert IsInsertion(s, s.events.pending[e.change.account].generation, e.change.account);
    }
  }

  lemma TasksKept(s: State, t: TaskId, e: Effect)
    requires StartInv(s) && Possible(s.shared, e.change) && Promotes(TaskAt(s, t), e)
    requires t in s.tasks || t == s.nextTask
    ensures TasksInv(Applied(s, t, e))
  {
    var s' := Applied(s, t, e);
    AppliedNumbered(s, t, e);
    VotersAfter(s.shared, t, e.change);
    forall u | u in s'.tasks ensures TaskInv(s'.shared, u, s'.tasks[u]) {
      if u == t {
        ActorKept(s.shared, t, TaskAt(s, t), e);
      } else {
        TaskKept(s.shared, t, e.change, u, s.tasks[u]);
      }
    }
  }

  lemma EffectKeepsStart(s: State, t: TaskId, e: Effect)
    requires StartInv(s) && Possible(s.shared, e.change) && Promotes(TaskAt(s, t), e)
    requires t in s.tasks || t == s.nextTask
    ensures StartInv(Applied(s, t, e))
  {
    EntriesKept(s.shared, t, e.change);
    if e.change.Start? {
      assert TaskInv(s.shared, t, s.tasks[t]);
    }
    VotersKept(s.shared, t, e.change);
    TasksKept(s, t, e);
  }

  lemma StartKept(env: Environment, s: State, a: Action)
    requires StartInv(s)
    ensures StartInv(AfterAction(env, s, a))
  {
    var t, e := TaskOf(s, a), EffectOf(env, s, a);
    EffectPossible(env, s, a);
    EffectPromotes(env, s, a);
    if a.Step? && t !in s.tasks {
      assert e == Effect(Nothing, None);
      assert s.tasks - {t} == s.tasks;
      assert Applied(s, t, e) == s;
    } else {
      EffectKeepsStart(s, t, e);
    }
  }

  lemma {:induction false} RunKeepsStart(env: Environment, actions: seq<Action>)
    ensures StartInv(Run(env, actions))
  {
    if actions != [] {
      RunKeepsStart(env, actions[..|actions| - 1]);
      StartKept(env, Run(env, actions[..|actions| - 1]), actions[|actions| - 1]);
    }
  }

  /** The tasks that passed `start_processing` for an account, and its insertions. */
  ghost function VotersFor(s: Shared, account: Account): set<TaskId> {
    set t | t in s.voters && IsInsertion(s, s.voters[t], account)
  }

  ghost function InsertionsOf(s: Shared, account: Account): set<Generation> {
    set g | 0 <= g < |s.events.inserted| && s.events.inserted[g] == account
  }

  lemma {:induction false} InjectionSize(f: map<TaskId, Generation>, a: set<TaskId>, b: set<Generation>)
    requires a <= f.Keys && forall t :: t in a ==> f[t] in b
    requires OnePerInsertion(f)
    ensures |a| <= |b|
    decreases |a|
  {
    if a != {} {
      var t :| t in a;
      InjectionSize(f, a - {t}, b - {f[t]});
    }
  }

  lemma VotersCounted(s: Shared, account: Account)
    requires VotersInv(s)
    ensures |VotersFor(s, account)| <= |InsertionsOf(s, account)|
  {
    InjectionSize(s.voters, VotersFor(s, account), InsertionsOf(s, account));
  }

  /** In every run at most one task passes `start_processing` per insertion of an event, and
      every voter passed for its own account: voters never outnumber insertions. */
  lemma VotersNeverOutnumberInsertions(env: Environment, actions: seq<Action>, account: Account)
    ensures OnePerInsertion(Run(env, actions).shared.voters)
    ensures |VotersFor(Run(env, actions).shared, account)| <= |InsertionsOf(Run(env, actions).shared, account)|
    ensures forall t :: t in Run(env, actions).tasks && IsVoter(Run(env, actions).tasks[t])
                && Run(env, actions).tasks[t].account == account
              ==> t in VotersFor(Run(env, actions).shared, account)
  {
    RunKeepsStart(env, actions);
    VotersCounted(Run(env, actions).shared, account);
    TheirVoters(Run(env, actions), account);
  }

  lemma TheirVoters(s: State, account: Account)
    requires TasksInv(s)
    ensures forall t :: t in s.tasks && IsVoter(s.tasks[t]) && s.tasks[t].account == account
              ==> t in VotersFor(s.shared, account)
  {
    forall t | t in s.tasks && IsVoter(s.tasks[t]) && s.tasks[t].account == account
      ensures t in VotersFor(s.shared, account)
    {
      assert TaskInv(s.shared, t, s.tasks[t]);
    }
  }

  // ---------------------------------------------------------------------------
  // When the voter ends
  // ---------------------------------------------------------------------------

  /** The flag of this insertion is used up. */
  ghost predicate Spent(s: Shared, g: Generation) {
    && g < |s.events.inserted|
    && forall a :: a in s.events.pending && s.events.pending[a].generation == g ==>
        s.events.pending[a].processingStarted
  }

  ghost predicate NobodyVotes(s: State, g: Generation) {
    forall t :: t in s.tasks && IsVoter(s.tasks[t]) && t in s.shared.voters ==> s.shared.voters[t] != g
  }

  lemma SpentKept(s: Shared, t: TaskId, c: Change, g: Generation)
    requires Spent(s, g) && Possible(s, c)
    ensures Spent(AfterChange(s, t, c), g)
    ensures c.Start? ==> s.events.pending[c.account].generation != g
  {
    VotersAfter(s, t, c);
  }

  lemma EffectKeepsSpent(s: State, t: TaskId, e: Effect, g: Generation)
    requires StartInv(s) && Possible(s.shared, e.change) && Promotes(TaskAt(s, t), e)
    requires Spent(s.shared, g) && NobodyVotes(s, g)
    ensures Spent(Applied(s, t, e).shared, g) && NobodyVotes(Applied(s, t, e), g)
  {
    var s' := Applied(s, t, e);
    SpentKept(s.shared, t, e.change, g);
    VotersAfter(s.shared, t, e.change);
    forall u | u in s'.tasks && IsVoter(s'.tasks[u]) && u in s'.shared.voters ensures s'.shared.voters[u] != g {
      if u != t {
        assert s.tasks[u] == s'.tasks[u];
        assert TaskInv(s.shared, u, s.tasks[u]);
      } else if !e.change.Start? {
        assert TaskInv(s.shared, t, s.tasks[t]);
      }
    }
  }

  lemma ActionKeepsSpent(env: Environment, s: State, a: Action, g: Generation)
    requires StartInv(s) && VotingIsOver(s, g)
    ensures VotingIsOver(AfterAction(env, s, a), g)
  {
    EffectPossible(env, s, a);
    EffectPromotes(env, s, a);
    EffectKeepsSpent(s, TaskOf(s, a), EffectOf(env, s, a), g);
  }

  lemma RunOf(env: Environment, actions: seq<Action>, a: Action)
    ensures Run(env, actions + [a]) == AfterAction(env, Run(env, actions), a)
  {
    assert (actions + [a])[..|actions|] == actions;
  }

  ghost predicate VotingIsOver(s: State, g: Generation) {
    Spent(s.shared, g) && NobodyVotes(s, g)
  }

  /** Once the voter of an insertion ends, whatever the reason, nobody ever votes for that
      insertion again. */
  lemma {:induction false} EndedVoterIsLast(env: Environment, actions: seq<Action>, more: seq<Action>, g: Generation)
    requires VotingIsOver(Run(env, actions), g)
    ensures VotingIsOver(Run(env, actions + more), g)
  {
    if more == [] {
      assert actions + more == actions;
    } else {
      var front, a := more[..|more| - 1], more[|more| - 1];
      assert actions + more == (actions + front) + [a];
      EndedVoterIsLast(env, actions, front, g);
      RunKeepsStart(env, actions + front);
      ActionKeepsSpent(env, Run(env, actions + front), a, g);
      RunOf(env, actions + front, a);
    }
  }
}
