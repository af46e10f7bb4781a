/**
 The counter of pending events against the map, in every run (src/engine/bridge/mod.rs).
 */
module BridgeCounter {
  import opened Maps
  import opened Words
  import opened Wrappers
  import opened ShardUtils
  import opened BridgeEvents
  import opened BridgeRuns

  ghost function CountingUpIn(tasks: map<TaskId, Task>): set<TaskId> {
    set t | t in tasks && tasks[t].CountingUp?
  }

  ghost function CountingDownIn(tasks: map<TaskId, Task>): set<TaskId> {
    set t | t in tasks && tasks[t].CountingDown?
  }

  /** Increments and decrements whose map update is done already. */
  ghost function IncrementsInFlight(s: State): nat {
    |CountingUpIn(s.tasks)|
  }

  ghost function DecrementsInFlight(s: State): nat {
    |CountingDownIn(s.tasks)|
  }

  function WholeWords(k: int): int {
    k * U64_MODULUS
  }

  ghost predicate Congruent(a: int, b: int) {
    exists k :: a == b + WholeWords(k)
  }

  ghost predicate Balanced(s: State) {
    && s.shared.events.count < U64_MODULUS
    && Congruent(|s.shared.events.pending| + DecrementsInFlight(s), s.shared.events.count + IncrementsInFlight(s))
  }

  function Flag(b: bool): nat {
    if b then 1 else 0
  }

  function Up(task: Option<Task>): nat {
    Flag(task.Some? && task.value.CountingUp?)
  }

  function Down(task: Option<Task>): nat {
    Flag(task.Some? && task.value.CountingDown?)
  }

  /** By how much a change grows the map, and by how much it moves the counter. */
  function Growth(c: Change): int {
    if c.Insert? then 1 else if c.Erase? then -1 else 0
  }

  function Counting(c: Change): int {
    if c.CountUp? then 1 else if c.CountDown? then -1 else 0
  }

  /** Every effect moves map, counter and what is in flight together. */
  lemma EffectBalanced(env: Environment, s: State, a: Action)
    requires TasksNumbered(s)
    ensures var before := TaskAt(s, TaskOf(s, a));
            var e := EffectOf(env, s, a);
            Growth(e.change) + Down(e.next) - Up(e.next) == Down(before) - Up(before) + Counting(e.change)
  {
  }

  lemma UpAfterPut(tasks: map<TaskId, Task>, t: TaskId, task: Task)
    ensures |CountingUpIn(tasks[t := task])| + Flag(t in tasks && tasks[t].CountingUp?)
         == |CountingUpIn(tasks)| + Flag(task.CountingUp?)
  {
    var rest := CountingUpIn(tasks) - {t};
    assert CountingUpIn(tasks[t := task]) == if task.CountingUp? then rest + {t} else rest;
    assert CountingUpIn(tasks) == if t in tasks && tasks[t].CountingUp? then rest + {t} else rest;
  }

  lemma UpAfterRemoval(tasks: map<TaskId, Task>, t: TaskId)
    ensures |CountingUpIn(tasks - {t})| + Flag(t in tasks && tasks[t].CountingUp?) == |CountingUpIn(tasks)|
  {
    var rest := CountingUpIn(tasks) - {t};
    assert CountingUpIn(tasks - {t}) == rest;
    assert CountingUpIn(tasks) == if t in tasks && tasks[t].CountingUp? then rest + {t} else rest;
  }

  lemma DownAfterPut(tasks: map<TaskId, Task>, t: TaskId, task: Task)
    ensures |CountingDownIn(tasks[t := task])| + Flag(t in tasks && tasks[t].CountingDown?)
         == |CountingDownIn(tasks)| + Flag(task.CountingDown?)
  {
    var rest := CountingDownIn(tasks) - {t};
    assert CountingDownIn(tasks[t := task]) == if task.CountingDown? then rest + {t} else rest;
    assert CountingDownIn(tasks) == if t in tasks && tasks[t].CountingDown? then rest + {t} else rest;
  }

  lemma DownAfterRemoval(tasks: map<TaskId, Task>, t: TaskId)
    ensures |CountingDownIn(tasks - {t})| + Flag(t in tasks && tasks[t].CountingDown?) == |CountingDownIn(tasks)|
  {
    var rest := CountingDownIn(tasks) - {t};
    assert CountingDownIn(tasks - {t}) == rest;
    assert CountingDownIn(tasks) == if t in tasks && tasks[t].CountingDown? then rest + {t} else rest;
  }

  lemma FlightChange(s: State, t: TaskId, e: Effect)
    requires Possible(s.shared, e.change)
    ensures IncrementsInFlight(Applied(s, t, e)) == IncrementsInFlight(s) - Up(TaskAt(s, t)) + Up(e.next)
    ensures DecrementsInFlight(Applied(s, t, e)) == DecrementsInFlight(s) - Down(TaskAt(s, t)) + Down(e.next)
  {
    match e.next
    case Some(task) =>
      UpAfterPut(s.tasks, t, task);
      DownAfterPut(s.tasks, t, task);
    case None =>
      UpAfterRemoval(s.tasks, t);
      DownAfterRemoval(s.tasks, t);
  }

  lemma PendingGrows(s: State, t: TaskId, c: Change)
    requires Possible(s.shared, c)
    ensures |AfterChange(s.shared, t, c).events.pending| == |s.shared.events.pending| + Growth(c)
  {
    var e := s.shared.events;
    match c
    case Insert(account) => SizeAfterUpdate(e.pending, account, PendingEvent(false, |e.inserted|));
    case Erase(account) => SizeAfterRemoval(e.pending, account);
    case Start(account) => SizeAfterUpdate(e.pending, account, e.pending[account].(processingStarted := true));
    case _ =>
  }

  lemma CounterMoves(s: State, t: TaskId, c: Change) returns (k: int)
    requires Possible(s.shared, c) && s.shared.events.count < U64_MODULUS
    ensures AfterChange(s.shared, t, c).events.count == s.shared.events.count + Counting(c) + WholeWords(k)
    ensures AfterChange(s.shared, t, c).events.count < U64_MODULUS
  {
    var n := s.shared.events.count;
    k := 0;
    if c.CountUp? && n + 1 == U64_MODULUS {
      k := -1;
    } else if c.CountDown? && n == 0 {
      k := 1;
    } else if c.CountDown? {
      assert (n + (U64_MODULUS - 1)) % U64_MODULUS == n - 1;
    }
  }

  lemma BalanceKept(s: State, t: TaskId, e: Effect)
    requires Balanced(s) && Possible(s.shared, e.change)
    requires Growth(e.change) + Down(e.next) - Up(e.next) == Down(TaskAt(s, t)) - Up(TaskAt(s, t)) + Counting(e.change)
    ensures Balanced(Applied(s, t, e))
  {
    FlightChange(s, t, e);
    PendingGrows(s, t, e.change);
    var k := CounterMoves(s, t, e.change);
    var s' := Applied(s, t, e);
    assert s'.shared.events == AfterChange(s.shared, t, e.change).events;
    var j :| |s.shared.events.pending| + DecrementsInFlight(s)
          == s.shared.events.count + IncrementsInFlight(s) + WholeWords(j);
    assert |s'.shared.events.pending| + DecrementsInFlight(s')
        == s'.shared.events.count + IncrementsInFlight(s') + WholeWords(j - k);
  }

  /** In every run the size of the map is the counter, plus the increments still to come,
      minus the decrements still to come, up to a word's wrap-around. */
  lemma {:induction false} CounterTracksMap(env: Environment, actions: seq<Action>)
    ensures Balanced(Run(env, actions))
  {
    if actions == [] {
      assert CountingUpIn(map[]) == {} && CountingDownIn(map[]) == {};
      assert WholeWords(0) == 0;
    } else {
      var front := actions[..|actions| - 1];
      CounterTracksMap(env, front);
      RunNumbersTasks(env, front);
      var s := Run(env, front);
      var a := actions[|actions| - 1];
      EffectPossible(env, s, a);
      EffectBalanced(env, s, a);
      BalanceKept(s, TaskOf(s, a), EffectOf(env, s, a));
    }
  }

  /** With nothing in flight, and fewer events than a word can count, they agree. */
  lemma QuietCounterIsExact(env: Environment, actions: seq<Action>)
    requires var s := Run(env, actions);
             IncrementsInFlight(s) == 0 && DecrementsInFlight(s) == 0 && |s.shared.events.pending| < U64_MODULUS
    ensures Run(env, actions).shared.events.count == |Run(env, actions).shared.events.pending|
  {
    CounterTracksMap(env, actions);
    SameWord(|Run(env, actions).shared.events.pending|, Run(env, actions).shared.events.count);
  }

  lemma SameWord(a: nat, b: nat)
    requires a < U64_MODULUS && b < U64_MODULUS && Congruent(a, b)
    ensures a == b
  {
  }
}
