/**
 Double-buffered publication of metrics (src/engine/metrics_exporter/mod.rs, and its one
 writer in src/engine/mod.rs).

 A run interleaves the writer with any number of readers. Loading the index, taking a lock,
 each write, storing the index and releasing a lock are steps of their own.
 */
module Metrics {
  import opened Wrappers

  const BUFFER_COUNT: nat := 2

  type ReaderId = nat

  /** While it writes, the texts it wrote since it took the lock. */
  datatype Writer = Idle | Acquiring(next: nat) | Writing(next: nat, texts: seq<string>) | Published(next: nat)

  /** A reader loaded the index when publication `since` was the latest, and `earlier` reads
      were over. */
  datatype Reader =
    | Loaded(index: nat, since: nat, earlier: nat)
    | Reading(index: nat, since: nat, earlier: nat)

  datatype Read = Read(text: string, version: nat, since: nat, earlier: nat)

  /** `published` lists all snapshots, the initial empty one first, each with all texts of its
      round; `versions` says which of them a buffer got last. */
  datatype State = State(
    data: seq<string>,
    current: nat,
    writer: Writer,
    readers: map<ReaderId, Reader>,
    published: seq<string>,
    versions: seq<nat>,
    finished: seq<Read>)

  const INITIAL: State := State(["", ""], 0, Idle, map[], [""], [0, 0], [])

  datatype Action =
    | LoadNext
    | LockForWriting
    | Cancel
    | Write(text: string)
    | StoreIndex
    | ReleaseWriter
    | LoadIndex(reader: ReaderId)
    | LockForReading(reader: ReaderId)
    | Leave(reader: ReaderId)

  function Joined(texts: seq<string>): string {
    if texts == [] then "" else Joined(texts[..|texts| - 1]) + texts[|texts| - 1]
  }

  predicate WriterHolds(w: Writer, index: nat) {
    (w.Writing? || w.Published?) && w.next == index
  }

  predicate SomeReaderHolds(s: State, index: nat) {
    exists r :: r in s.readers && s.readers[r].Reading? && s.readers[r].index == index
  }

  predicate InBounds(s: State) {
    && |s.data| == BUFFER_COUNT && |s.versions| == BUFFER_COUNT
    && s.current < BUFFER_COUNT && s.published != []
    && (!s.writer.Idle? ==> s.writer.next < BUFFER_COUNT)
    && forall r :: r in s.readers ==> s.readers[r].index < BUFFER_COUNT
  }

  function AfterWriterStep(s: State, a: Action): State
    requires InBounds(s)
  {
    match a
    case LoadNext => if s.writer == Idle then s.(writer := Acquiring((s.current + 1) % BUFFER_COUNT)) else s
    case LockForWriting =>
      if s.writer.Acquiring? && !SomeReaderHolds(s, s.writer.next)
      then s.(writer := Writing(s.writer.next, []), data := s.data[s.writer.next := ""])
      else s
    case Cancel => if s.writer.Acquiring? then s.(writer := Idle) else s
    case Write(text) =>
      if s.writer.Writing?
      then s.(writer := Writing(s.writer.next, s.writer.texts + [text]),
              data := s.data[s.writer.next := s.data[s.writer.next] + text])
      else s
    case StoreIndex =>
      // Dropping the buffer stores the index first; its guard is released after that.
      if s.writer.Writing?
      then s.(writer := Published(s.writer.next),
              current := s.writer.next,
              published := s.published + [Joined(s.writer.texts)],
              versions := s.versions[s.writer.next := |s.published|])
      else s
    case ReleaseWriter => if s.writer.Published? then s.(writer := Idle) else s
    case _ => s
  }

  function AfterReaderStep(s: State, a: Action): State
    requires InBounds(s)
  {
    match a
    case LoadIndex(r) =>
      if r in s.readers then s
      else s.(readers := s.readers[r := Loaded(s.current, |s.published| - 1, |s.finished|)])
    case LockForReading(r) =>
      if r in s.readers && s.readers[r].Loaded? && !WriterHolds(s.writer, s.readers[r].index)
      then s.(readers := s.readers[r := Reading(s.readers[r].index, s.readers[r].since, s.readers[r].earlier)])
      else s
    case Leave(r) =>
      // The text is copied under the lock.
      if r in s.readers && s.readers[r].Reading? then
        var reader := s.readers[r];
        var read := Read(s.data[reader.index], s.versions[reader.index], reader.since, reader.earlier);
        s.(readers := s.readers - {r}, finished := s.finished + [read])
      else s
    case _ => s
  }

  function AfterAction(s: State, a: Action): State
    requires InBounds(s)
  {
    if a.LoadIndex? || a.LockForReading? || a.Leave? then AfterReaderStep(s, a) else AfterWriterStep(s, a)
  }

  lemma StepInBounds(s: State, a: Action)
    requires InBounds(s)
    ensures InBounds(AfterAction(s, a))
  {
  }

  function Run(actions: seq<Action>): (s: State)
    ensures InBounds(s)
  {
    if actions == [] then INITIAL
    else
      var s := Run(actions[..|actions| - 1]);
      var a := actions[|actions| - 1];
      StepInBounds(s, a);
      AfterAction(s, a)
  }

  // ---------------------------------------------------------------------------
  // Invariants
  // ---------------------------------------------------------------------------

  /** A buffer that is not being written holds the publication it got last, complete. */
  ghost predicate BuffersComplete(s: State)
    requires InBounds(s)
  {
    forall b :: 0 <= b < BUFFER_COUNT ==>
      s.versions[b] < |s.published| && (!IsWriting(s.writer, b) ==> s.data[b] == s.published[s.versions[b]])
  }

  predicate IsWriting(w: Writer, index: nat) {
    w.Writing? && w.next == index
  }

  /** The buffer being written holds what was written in this round, and nothing older. */
  ghost predicate RoundCollected(s: State)
    requires InBounds(s)
  {
    s.writer.Writing? ==> s.data[s.writer.next] == Joined(s.writer.texts)
  }

  /** The index names the latest publication, and the writer works elsewhere. */
  ghost predicate CurrentIsLatest(s: State)
    requires InBounds(s)
  {
    && s.versions[s.current] == |s.published| - 1
    && (s.writer.Acquiring? || s.writer.Writing? ==> s.writer.next != s.current)
  }

  /** Locks exclude each other. */
  ghost predicate LocksExclude(s: State) {
    forall r :: r in s.readers && s.readers[r].Reading? ==> !WriterHolds(s.writer, s.readers[r].index)
  }

  /** What a reader is going to read is not older than what was current for it. */
  ghost predicate ReadersFresh(s: State)
    requires InBounds(s)
  {
    forall r :: r in s.readers ==>
      && s.readers[r].since <= s.versions[s.readers[r].index]
      && s.readers[r].earlier <= |s.finished|
      && forall i :: 0 <= i < s.readers[r].earlier ==> s.finished[i].version <= s.readers[r].since
  }

  ghost predicate IsComplete(read: Read, published: seq<string>) {
    read.since <= read.version < |published| && read.text == published[read.version]
  }

  ghost predicate ReadsComplete(s: State) {
    forall i :: 0 <= i < |s.finished| ==>
      && IsComplete(s.finished[i], s.published)
      && s.finished[i].earlier <= i
      && forall j :: 0 <= j < s.finished[i].earlier ==> s.finished[j].version <= s.finished[i].version
  }

  ghost predicate Inv(s: State) {
    InBounds(s) && BuffersComplete(s) && RoundCollected(s) && CurrentIsLatest(s) && LocksExclude(s)
      && ReadersFresh(s) && ReadsComplete(s)
  }

  lemma WriterKeepsBuffers(s: State, a: Action)
    requires Inv(s)
    ensures var s' := AfterWriterStep(s, a);
            && InBounds(s') && BuffersComplete(s') && RoundCollected(s') && CurrentIsLatest(s')
            && s.published <= s'.published
            && forall b :: 0 <= b < BUFFER_COUNT ==> s.versions[b] <= s'.versions[b]
  {
    if a.Write? && s.writer.Writing? {
      assert (s.writer.texts + [a.text])[..|s.writer.texts|] == s.writer.texts;
    }
  }

  /** The writer leaves readers and finished reads alone. */
  lemma WriterLeavesReaders(s: State, a: Action)
    requires Inv(s)
    ensures AfterWriterStep(s, a).readers == s.readers && AfterWriterStep(s, a).finished == s.finished
    ensures LocksExclude(AfterWriterStep(s, a))
  {
    match a
    case LockForWriting => assert AfterWriterStep(s, a).readers == s.readers;
    case _ =>
  }

  lemma WriterKeepsFresh(s: State, s': State)
    requires InBounds(s) && InBounds(s') && ReadersFresh(s)
    requires s'.readers == s.readers && s'.finished == s.finished
    requires forall b :: 0 <= b < BUFFER_COUNT ==> s.versions[b] <= s'.versions[b]
    ensures ReadersFresh(s')
  {
  }

  lemma WriterKeepsReads(s: State, s': State)
    requires ReadsComplete(s) && s'.finished == s.finished && s.published <= s'.published
    ensures ReadsComplete(s')
  {
    forall i | 0 <= i < |s'.finished|
      ensures IsComplete(s'.finished[i], s'.published) && s'.finished[i].earlier <= i
      ensures forall j :: 0 <= j < s'.finished[i].earlier ==> s'.finished[j].version <= s'.finished[i].version
    {
      assert IsComplete(s.finished[i], s.published);
    }
  }

  lemma WriterStep(s: State, a: Action)
    requires Inv(s)
    ensures Inv(AfterWriterStep(s, a))
  {
    WriterKeepsBuffers(s, a);
    WriterLeavesReaders(s, a);
    WriterKeepsFresh(s, AfterWriterStep(s, a));
    WriterKeepsReads(s, AfterWriterStep(s, a));
  }

  lemma ReadIsOver(s: State, r: ReaderId)
    requires Inv(s) && r in s.readers && s.readers[r].Reading?
    ensures ReadsComplete(AfterReaderStep(s, Leave(r)))
  {
    var s' := AfterReaderStep(s, Leave(r));
    var reader := s.readers[r];
    assert !WriterHolds(s.writer, reader.index);
    forall i | 0 <= i < |s'.finished|
      ensures IsComplete(s'.finished[i], s'.published) && s'.finished[i].earlier <= i
      ensures forall j :: 0 <= j < s'.finished[i].earlier ==> s'.finished[j].version <= s'.finished[i].version
    {
      if i < |s.finished| {
        assert s'.finished[i] == s.finished[i];
      }
    }
  }

  lemma ReaderStep(s: State, a: Action)
    requires Inv(s)
    ensures Inv(AfterReaderStep(s, a))
  {
    var s' := AfterReaderStep(s, a);
    match a
    case Leave(r) =>
      if r in s.readers && s.readers[r].Reading? {
        ReadIsOver(s, r);
      }
    case LoadIndex(r) =>
      forall i | 0 <= i < |s.finished| ensures s.finished[i].version <= |s.published| - 1 {
        assert IsComplete(s.finished[i], s.published);
      }
    case _ =>
  }

  lemma {:induction false} RunKeepsInv(actions: seq<Action>)
    ensures Inv(Run(actions))
  {
    if actions != [] {
      var s := Run(actions[..|actions| - 1]);
      RunKeepsInv(actions[..|actions| - 1]);
      WriterStep(s, actions[|actions| - 1]);
      ReaderStep(s, actions[|actions| - 1]);
    }
  }

  /** In every run, each read returns a complete published snapshot, not older than the one
      that was current when its reader loaded the index. */
  lemma ReadsAreSnapshots(actions: seq<Action>, i: nat)
    requires i < |Run(actions).finished|
    ensures var s := Run(actions);
            && s.finished[i].since <= s.finished[i].version < |s.published|
            && s.finished[i].text == s.published[s.finished[i].version]
  {
    RunKeepsInv(actions);
    assert IsComplete(Run(actions).finished[i], Run(actions).published);
  }

  /** A read begun after another one was over never returns an older snapshot. */
  lemma ReadsNeverGoBack(actions: seq<Action>, i: nat, j: nat)
    requires i < |Run(actions).finished| && j < Run(actions).finished[i].earlier
    ensures j < i && Run(actions).finished[j].version <= Run(actions).finished[i].version
  {
    RunKeepsInv(actions);
  }

  /** The writer never waits for readers that came after its last publication: they are on
      the other buffer. */
  lemma NewReadersDoNotBlock(actions: seq<Action>, r: ReaderId)
    requires var s := Run(actions);
             r in s.readers && s.writer.Acquiring? && s.readers[r].since == |s.published| - 1
    ensures Run(actions).readers[r].index == Run(actions).current != Run(actions).writer.next
  {
    RunKeepsInv(actions);
    RunVersionsDiffer(actions);
  }

  /** Two buffers only ever hold the same publication before the first one. */
  ghost predicate VersionsDiffer(s: State)
    requires InBounds(s)
  {
    forall b :: 0 <= b < BUFFER_COUNT && b != s.current ==>
      s.versions[b] < |s.published| - 1 || |s.published| == 1
  }

  lemma {:induction false} RunVersionsDiffer(actions: seq<Action>)
    ensures VersionsDiffer(Run(actions))
    ensures forall r :: r in Run(actions).readers && |Run(actions).published| == 1 ==>
              Run(actions).readers[r].index == Run(actions).current
  {
    if actions != [] {
      RunVersionsDiffer(actions[..|actions| - 1]);
      RunKeepsInv(actions[..|actions| - 1]);
    }
  }

  // ---------------------------------------------------------------------------
  // Rounds and reads do happen
  // ---------------------------------------------------------------------------

  lemma OneMore(actions: seq<Action>, a: Action)
    ensures Run(actions + [a]) == AfterAction(Run(actions), a)
  {
    assert (actions + [a])[..|actions|] == actions;
  }

  function Writes(texts: seq<string>): seq<Action> {
    if texts == [] then [] else Writes(texts[..|texts| - 1]) + [Write(texts[|texts| - 1])]
  }

  /** The writer holds the buffer, and wrote these texts; nothing is public yet. */
  ghost predicate HasWritten(s: State, s': State, next: nat, texts: seq<string>) {
    s'.writer == Writing(next, texts) && s'.published == s.published && s'.current == s.current
  }

  lemma RoundStarts(s: State)
    requires InBounds(s) && s.writer == Idle && !SomeReaderHolds(s, (s.current + 1) % BUFFER_COUNT)
    ensures var s1 := AfterAction(s, LoadNext);
            InBounds(s1) && HasWritten(s, AfterAction(s1, LockForWriting), (s.current + 1) % BUFFER_COUNT, [])
  {
    assert AfterAction(s, LoadNext).readers == s.readers;
  }

  lemma RoundWrites(s: State, s': State, next: nat, texts: seq<string>, text: string)
    requires InBounds(s') && HasWritten(s, s', next, texts)
    ensures HasWritten(s, AfterAction(s', Write(text)), next, texts + [text])
  {
  }

  lemma RoundEnds(s: State, s': State, next: nat, texts: seq<string>)
    requires InBounds(s') && HasWritten(s, s', next, texts)
    ensures var s1 := AfterAction(s', StoreIndex);
            && InBounds(s1)
            && var s2 := AfterAction(s1, ReleaseWriter);
               s2.published == s.published + [Joined(texts)] && s2.writer == Idle && s2.current == next
  {
  }

  lemma {:induction false} WritesCollect(s: State, actions: seq<Action>, next: nat, texts: seq<string>)
    requires HasWritten(s, Run(actions), next, [])
    ensures HasWritten(s, Run(actions + Writes(texts)), next, texts)
    decreases |texts|
  {
    if texts == [] {
      assert actions + Writes(texts) == actions;
    } else {
      var n := |texts| - 1;
      WritesCollect(s, actions, next, texts[..n]);
      assert actions + Writes(texts) == (actions + Writes(texts[..n])) + [Write(texts[n])];
      OneMore(actions + Writes(texts[..n]), Write(texts[n]));
      RoundWrites(s, Run(actions + Writes(texts[..n])), next, texts[..n], texts[n]);
      assert texts == texts[..n] + [texts[n]];
    }
  }

  lemma TwoMore(actions: seq<Action>, a: Action, b: Action)
    ensures Run(actions + [a, b]) == AfterAction(AfterAction(Run(actions), a), b)
  {
    assert actions + [a, b] == actions + [a] + [b];
    OneMore(actions, a);
    OneMore(actions + [a], b);
  }

  lemma LatestIsCurrent(actions: seq<Action>)
    ensures Run(actions).data[Run(actions).current] == Run(actions).published[|Run(actions).published| - 1]
  {
    RunKeepsInv(actions);
  }

  lemma LocksThenWrites(actions: seq<Action>, texts: seq<string>)
    requires Run(actions).writer == Idle && !SomeReaderHolds(Run(actions), (Run(actions).current + 1) % BUFFER_COUNT)
    ensures HasWritten(Run(actions), Run(actions + [LoadNext, LockForWriting] + Writes(texts)),
                       (Run(actions).current + 1) % BUFFER_COUNT, texts)
  {
    TwoMore(actions, LoadNext, LockForWriting);
    RoundStarts(Run(actions));
    WritesCollect(Run(actions), actions + [LoadNext, LockForWriting], (Run(actions).current + 1) % BUFFER_COUNT, texts);
  }

  lemma ThenDrops(s: State, actions: seq<Action>, next: nat, texts: seq<string>)
    requires HasWritten(s, Run(actions), next, texts)
    ensures var s' := Run(actions + [StoreIndex, ReleaseWriter]);
            s'.published == s.published + [Joined(texts)] && s'.writer == Idle && s'.current == next
  {
    TwoMore(actions, StoreIndex, ReleaseWriter);
    RoundEnds(s, Run(actions), next, texts);
  }

  /** The round is over, and its texts are current. */
  ghost predicate HasPublished(s: State, s': State, texts: seq<string>) {
    && InBounds(s') && s'.writer == Idle && s'.current == (s.current + 1) % BUFFER_COUNT
    && s'.published == s.published + [Joined(texts)] && s'.data[s'.current] == Joined(texts)
  }

  /** A round of the writer that finds nobody on the other buffer publishes the texts it writes
      there and is over. */
  lemma RoundPublishes(actions: seq<Action>, texts: seq<string>)
    requires Run(actions).writer == Idle && !SomeReaderHolds(Run(actions), (Run(actions).current + 1) % BUFFER_COUNT)
    ensures HasPublished(Run(actions),
                         Run(actions + [LoadNext, LockForWriting] + Writes(texts) + [StoreIndex, ReleaseWriter]), texts)
  {
    LocksThenWrites(actions, texts);
    DropsAndPublishes(Run(actions), actions + [LoadNext, LockForWriting] + Writes(texts), texts);
  }

  lemma DropsAndPublishes(s: State, actions: seq<Action>, texts: seq<string>)
    requires HasWritten(s, Run(actions), (s.current + 1) % BUFFER_COUNT, texts)
    ensures HasPublished(s, Run(actions + [StoreIndex, ReleaseWriter]), texts)
  {
    ThenDrops(s, actions, (s.current + 1) % BUFFER_COUNT, texts);
    LatestIsCurrent(actions + [StoreIndex, ReleaseWriter]);
  }

  lemma ReadsCurrent(s: State, r: ReaderId)
    requires InBounds(s) && r !in s.readers && !WriterHolds(s.writer, s.current)
    ensures var s1 := AfterAction(s, LoadIndex(r));
            && InBounds(s1) && InBounds(AfterAction(s1, LockForReading(r)))
            && var s' := AfterAction(AfterAction(s1, LockForReading(r)), Leave(r));
               && |s'.finished| == |s.finished| + 1 && s'.readers == s.readers
               && s'.finished[|s.finished|].text == s.data[s.current]
  {
  }

  /** A reader that finds the writer elsewhere gets what was published last. */
  lemma ReaderGetsLatest(actions: seq<Action>, r: ReaderId)
    requires r !in Run(actions).readers && !WriterHolds(Run(actions).writer, Run(actions).current)
    ensures var s, s' := Run(actions), Run(actions + [LoadIndex(r), LockForReading(r)] + [Leave(r)]);
            && |s'.finished| == |s.finished| + 1 && s'.readers == s.readers
            && s'.finished[|s.finished|].text == s.published[|s.published| - 1]
  {
    TwoMore(actions, LoadIndex(r), LockForReading(r));
    OneMore(actions + [LoadIndex(r), LockForReading(r)], Leave(r));
    ReadsCurrent(Run(actions), r);
    LatestIsCurrent(actions);
  }

  // ---------------------------------------------------------------------------
  // The buffers
  // ---------------------------------------------------------------------------

  class Buffers {
    const data: array<string>
    var currentBuffer: nat

    ghost predicate Valid()
      reads this, data
    {
      data.Length == BUFFER_COUNT && currentBuffer < BUFFER_COUNT
    }

    constructor ()
      ensures Valid() && fresh(data) && data[currentBuffer] == ""
    {
      data := new string[BUFFER_COUNT](_ => "");
      currentBuffer := 0;
    }

    method GetMetrics() returns (text: string)
      requires Valid()
      ensures text == data[currentBuffer]
    {
      text := data[currentBuffer];
    }

    /** One round of the writer: it acquires the other buffer, writes, and drops it. What was
        current before stays as it was. */
    method Publish(metrics: seq<string>)
      requires Valid()
      modifies this, data
      ensures Valid()
      ensures data[currentBuffer] == Joined(metrics)
      ensures currentBuffer != old(currentBuffer) && data[old(currentBuffer)] == old(data[currentBuffer])
    {
      var nextBuffer := (currentBuffer + 1) % BUFFER_COUNT;
      data[nextBuffer] := "";
      for i := 0 to |metrics|
        invariant Valid() && currentBuffer == old(currentBuffer)
        invariant data[nextBuffer] == Joined(metrics[..i])
        invariant data[currentBuffer] == old(data[currentBuffer])
      {
        assert metrics[..i + 1][..i] == metrics[..i];
        data[nextBuffer] := data[nextBuffer] + metrics[i];
      }
      assert metrics[..|metrics|] == metrics;
      currentBuffer := nextBuffer;
    }
  }
}
