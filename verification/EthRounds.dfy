/**
 Runs of one chain's confirmation engine (src/engine/eth_subscriber/mod.rs).

 A round first reads the height and the cursor and fetches logs, and later resolves
 confirmations under the lock. In between requests may arrive, and the round may fail.
 */
module EthRounds {
  import opened Words
  import opened Wrappers
  import opened EthEvents
  import opened EthSubscriber

  datatype Phase = Idle | Fetching(height: nat, fromBlock: nat, toBlock: nat)

  /** A successful round: the height it read, the inclusive range it queried, the logs it got,
      and what the node said about each transaction. */
  datatype Round = Round(height: nat, fromBlock: nat, toBlock: nat, logs: seq<Log>, lookups: Lookups) {
    const events: seq<ParsedEthEvent> := ParseTransactionLogs(logs)
  }

  /** A call of `verify`, and how many rounds were over when it was made. */
  datatype Call = Call(request: Request, since: nat)

  datatype State = State(start: nat, engine: Engine, phase: Phase, calls: seq<Call>, rounds: seq<Round>)

  datatype Action =
    | Verify(request: Request)
    | Begin(height: nat)
    | Fail
    | Finish(logs: seq<Log>, lookups: Lookups)

  function Started(height: nat): State {
    State(height, Engine(height, map[], 0, {}, {}), Idle, [], [])
  }

  function AfterAction(maxBlockRange: Option<nat>, s: State, a: Action): State {
    match a
    case Verify(request) =>
      s.(engine := AfterVerify(s.engine, request), calls := s.calls + [Call(request, |s.rounds|)])
    case Begin(height) =>
      if s.phase != Idle then s
      else
        (match TargetOf(s.engine.cursor, height, maxBlockRange)
         case Some(to) => s.(phase := Fetching(height, s.engine.cursor, to))
         case None => s)
    case Fail => s.(phase := Idle)
    case Finish(logs, lookups) =>
      if s.phase == Idle then s
      else
        s.(engine := AfterRound(s.engine, s.phase.toBlock, ParseTransactionLogs(logs), lookups),
           phase := Idle,
           rounds := s.rounds + [Round(s.phase.height, s.phase.fromBlock, s.phase.toBlock, logs, lookups)])
  }

  function Run(maxBlockRange: Option<nat>, height: nat, actions: seq<Action>): State {
    if actions == [] then Started(height)
    else AfterAction(maxBlockRange, Run(maxBlockRange, height, actions[..|actions| - 1]), actions[|actions| - 1])
  }

  // ---------------------------------------------------------------------------
  // Conservation of requests
  // ---------------------------------------------------------------------------

  ghost predicate PendingTicket(e: Engine, t: Ticket) {
    exists id :: id in e.pending && e.pending[id].statusTx == t
  }

  ghost predicate AnsweredTicket(e: Engine, t: Ticket) {
    exists v :: (t, v) in e.answers
  }

  /** A pending confirmation has its own channel, unused so far. */
  ghost predicate ChannelsUnused(e: Engine) {
    && KeyedById(e.pending)
    && (forall id :: id in e.pending ==>
          e.pending[id].statusTx < e.issued && e.pending[id].statusTx !in e.dropped
          && !AnsweredTicket(e, e.pending[id].statusTx))
    && (forall a, b :: a in e.pending && b in e.pending && e.pending[a].statusTx == e.pending[b].statusTx ==> a == b)
  }

  /** A channel is dropped or answered, not both, and answered once. */
  ghost predicate ChannelsClosedOnce(e: Engine) {
    && (forall t :: t in e.dropped ==> t < e.issued && !AnsweredTicket(e, t))
    && (forall p :: p in e.answers ==> p.0 < e.issued)
    && (forall p, q :: p in e.answers && q in e.answers && p.0 == q.0 ==> p == q)
  }

  ghost predicate AllAccounted(e: Engine) {
    forall t: Ticket :: t < e.issued ==> PendingTicket(e, t) || t in e.dropped || AnsweredTicket(e, t)
  }

  /** Every call is pending, superseded or answered, exactly one of these, and answered once. */
  ghost predicate Conserved(e: Engine) {
    ChannelsUnused(e) && ChannelsClosedOnce(e) && AllAccounted(e)
  }

  lemma VerifyAccounts(e: Engine, r: Request, t: Ticket)
    requires AllAccounted(e) && t < e.issued + 1
    ensures var e' := AfterVerify(e, r);
            PendingTicket(e', t) || t in e'.dropped || AnsweredTicket(e', t)
  {
    var e' := AfterVerify(e, r);
    var id := RequestId(r);
    if t == e.issued {
      assert e'.pending[id].statusTx == t;
    } else if PendingTicket(e, t) {
      var k :| k in e.pending && e.pending[k].statusTx == t;
      if k != id {
        assert e'.pending[k].statusTx == t;
      }
    } else if AnsweredTicket(e, t) {
      var v :| (t, v) in e.answers;
      assert (t, v) in e'.answers;
    }
  }

  lemma VerifyChannels(e: Engine, r: Request)
    requires ChannelsUnused(e) && ChannelsClosedOnce(e)
    ensures ChannelsUnused(AfterVerify(e, r)) && ChannelsClosedOnce(AfterVerify(e, r))
  {
    var e' := AfterVerify(e, r);
    assert !AnsweredTicket(e, e.issued);
    forall t: Ticket ensures AnsweredTicket(e', t) <==> AnsweredTicket(e, t) {
    }
  }

  lemma VerifyConserves(e: Engine, r: Request)
    requires Conserved(e)
    ensures Conserved(AfterVerify(e, r))
  {
    VerifyChannels(e, r);
    forall t: Ticket | t < e.issued + 1
      ensures PendingTicket(AfterVerify(e, r), t) || t in AfterVerify(e, r).dropped
        || AnsweredTicket(AfterVerify(e, r), t)
    {
      VerifyAccounts(e, r, t);
    }
  }

  /** What the answers of a round are. */
  lemma SentMeans(pending: Confirmations, to: nat, lookups: Lookups, p: (Ticket, VerificationStatus))
    returns (id: EventId)
    requires p in Sent(pending, pending.Keys, to, lookups)
    ensures id in pending && pending[id].statusTx == p.0
    ensures ResolutionOf(pending[id], to, lookups(id)) == Answer(p.1)
  {
    id :| id in pending && id in pending.Keys && ResolutionOf(pending[id], to, lookups(id)).Answer?
      && p == (pending[id].statusTx, ResolutionOf(pending[id], to, lookups(id)).status);
  }

  lemma RoundAnswers(e: Engine, to: nat, events: seq<ParsedEthEvent>, lookups: Lookups, t: Ticket)
    requires ChannelsUnused(e)
    ensures var e' := AfterRound(e, to, events, lookups);
            && (AnsweredTicket(e, t) ==> AnsweredTicket(e', t))
            && (AnsweredTicket(e', t) && !AnsweredTicket(e, t) ==> PendingTicket(e, t) && !PendingTicket(e', t))
            && (PendingTicket(e, t) ==> PendingTicket(e', t) || AnsweredTicket(e', t))
            && (PendingTicket(e', t) ==> PendingTicket(e, t) && !AnsweredTicket(e', t))
  {
    var e' := AfterRound(e, to, events, lookups);
    var updated := WithEvents(e.pending, events);
    if AnsweredTicket(e, t) {
      var v :| (t, v) in e.answers;
      assert (t, v) in e'.answers;
    }
    if AnsweredTicket(e', t) && !AnsweredTicket(e, t) {
      var v :| (t, v) in e'.answers;
      var id := SentMeans(updated, to, lookups, (t, v));
      assert e.pending[id].statusTx == t;
      assert id !in e'.pending;
    }
    if PendingTicket(e, t) {
      var id :| id in e.pending && e.pending[id].statusTx == t;
      if id in e'.pending {
        assert e'.pending[id].statusTx == t;
      } else {
        var v := ResolutionOf(updated[id], to, lookups(id)).status;
        assert (t, v) in Sent(updated, updated.Keys, to, lookups);
      }
    }
    if PendingTicket(e', t) {
      var id :| id in e'.pending && e'.pending[id].statusTx == t;
      assert e.pending[id].statusTx == t;
    }
  }

  lemma NewAnswerWasPending(e: Engine, to: nat, events: seq<ParsedEthEvent>, lookups: Lookups,
                            p: (Ticket, VerificationStatus))
    requires ChannelsUnused(e) && p in AfterRound(e, to, events, lookups).answers && p !in e.answers
    ensures p.0 < e.issued && !AnsweredTicket(e, p.0)
  {
    var id := SentMeans(WithEvents(e.pending, events), to, lookups, p);
    assert e.pending[id].statusTx == p.0;
  }

  lemma RoundAnswersOnce(e: Engine, to: nat, events: seq<ParsedEthEvent>, lookups: Lookups,
                         p: (Ticket, VerificationStatus), q: (Ticket, VerificationStatus))
    requires ChannelsUnused(e) && ChannelsClosedOnce(e)
    requires var e' := AfterRound(e, to, events, lookups); p in e'.answers && q in e'.answers && p.0 == q.0
    ensures p == q && p.0 < e.issued
  {
    assert (p.0, p.1) == p && (q.0, q.1) == q;
    if p !in e.answers && q !in e.answers {
      var updated := WithEvents(e.pending, events);
      var a := SentMeans(updated, to, lookups, p);
      var b := SentMeans(updated, to, lookups, q);
      assert e.pending[a].statusTx == e.pending[b].statusTx;
      NewAnswerWasPending(e, to, events, lookups, p);
    } else if p !in e.answers {
      NewAnswerWasPending(e, to, events, lookups, p);
    } else if q !in e.answers {
      NewAnswerWasPending(e, to, events, lookups, q);
    }
  }

  lemma RoundConserves(e: Engine, to: nat, events: seq<ParsedEthEvent>, lookups: Lookups)
    requires Conserved(e)
    ensures Conserved(AfterRound(e, to, events, lookups))
  {
    var e' := AfterRound(e, to, events, lookups);
    forall t: Ticket ensures RoundFacts(e, e', t) {
      RoundAnswers(e, to, events, lookups, t);
    }
    forall p, q | p in e'.answers && q in e'.answers && p.0 == q.0 ensures p == q && p.0 < e.issued {
      RoundAnswersOnce(e, to, events, lookups, p, q);
    }
    forall id | id in e'.pending
      ensures e'.pending[id].statusTx == e.pending[id].statusTx && RequestId(e'.pending[id].request) == id
    {
    }
    RoundChannels(e, e');
  }

  ghost predicate RoundFacts(e: Engine, e': Engine, t: Ticket) {
    && (AnsweredTicket(e, t) ==> AnsweredTicket(e', t))
    && (AnsweredTicket(e', t) && !AnsweredTicket(e, t) ==> PendingTicket(e, t) && !PendingTicket(e', t))
    && (PendingTicket(e, t) ==> PendingTicket(e', t) || AnsweredTicket(e', t))
    && (PendingTicket(e', t) ==> PendingTicket(e, t) && !AnsweredTicket(e', t))
  }

  lemma RoundChannels(e: Engine, e': Engine)
    requires Conserved(e)
    requires forall t: Ticket :: RoundFacts(e, e', t)
    requires forall p, q :: p in e'.answers && q in e'.answers && p.0 == q.0 ==> p == q && p.0 < e.issued
    requires forall id :: id in e'.pending ==>
               id in e.pending && e'.pending[id].statusTx == e.pending[id].statusTx
                 && RequestId(e'.pending[id].request) == id
    requires e'.issued == e.issued && e'.dropped == e.dropped
    ensures Conserved(e')
  {
    forall id | id in e'.pending
      ensures e'.pending[id].statusTx < e'.issued && e'.pending[id].statusTx !in e'.dropped
              && !AnsweredTicket(e', e'.pending[id].statusTx)
    {
      assert PendingTicket(e', e'.pending[id].statusTx);
      assert RoundFacts(e, e', e'.pending[id].statusTx);
    }
    forall t | t in e'.dropped ensures !AnsweredTicket(e', t) {
      assert RoundFacts(e, e', t);
      assert !PendingTicket(e, t);
    }
    forall t: Ticket | t < e'.issued ensures PendingTicket(e', t) || t in e'.dropped || AnsweredTicket(e', t) {
      assert RoundFacts(e, e', t);
    }
  }

  lemma {:induction false} RunConserves(maxBlockRange: Option<nat>, height: nat, actions: seq<Action>)
    ensures Conserved(Run(maxBlockRange, height, actions).engine)
  {
    if actions != [] {
      RunConserves(maxBlockRange, height, actions[..|actions| - 1]);
      var s := Run(maxBlockRange, height, actions[..|actions| - 1]);
      match actions[|actions| - 1]
      case Verify(request) => VerifyConserves(s.engine, request);
      case Begin(_) =>
      case Fail =>
      case Finish(logs, lookups) =>
        if s.phase != Idle {
          RoundConserves(s.engine, s.phase.toBlock, ParseTransactionLogs(logs), lookups);
        }
    }
  }

  // ---------------------------------------------------------------------------
  // Verdicts across batches
  // ---------------------------------------------------------------------------

  /** All logs of the rounds from `since` on, in order. */
  function LogsSince(rounds: seq<Round>, since: nat): seq<Log> {
    if since >= |rounds| then []
    else LogsSince(rounds[..|rounds| - 1], since) + rounds[|rounds| - 1].logs
  }

  lemma LogsOfOneMore(rounds: seq<Round>, round: Round, since: nat)
    requires since <= |rounds|
    ensures LogsSince(rounds + [round], since) == LogsSince(rounds, since) + round.logs
  {
    assert (rounds + [round])[..|rounds|] == rounds;
  }

  /** The pending confirmations are what their calls asked for, due at the block of the event
      plus the blocks to wait for, with the verdict of all logs seen since. */
  ghost predicate VerdictsInv(s: State) {
    && |s.calls| == s.engine.issued
    && (forall t :: 0 <= t < |s.calls| ==> s.calls[t].since <= |s.rounds|)
    && (forall id :: id in s.engine.pending ==> VerdictInv(s, s.engine.pending[id]))
  }

  ghost predicate VerdictInv(s: State, c: Confirmation) {
    && c.statusTx < |s.calls|
    && c.request == s.calls[c.statusTx].request
    && c.target == c.request.vote.eventBlockNumber + c.request.blocksToConfirm
    && HasVerdictOf(c.status, c.request, LogsSince(s.rounds, s.calls[c.statusTx].since))
  }

  /** The status is what the last log with the id of the request makes it. */
  ghost predicate HasVerdictOf(status: ConfirmationStatus, r: Request, logs: seq<Log>) {
    && (status == Valid <==> LastLogProves(r, logs))
    && (status == Invalid <==> LastLogDisproves(r, logs))
  }

  lemma VerdictOfMoreLogs(r: Request, status: ConfirmationStatus, logs: seq<Log>, more: seq<Log>)
    requires HasVerdictOf(status, r, logs)
    ensures HasVerdictOf(StatusAfter(r, status, ParseTransactionLogs(more)), r, logs + more)
  {
    StatusOfLogs(r, logs);
    StatusOfLogs(r, logs + more);
    ParsedConcat(logs, more);
    StatusAfterConcat(r, InProcess, ParseTransactionLogs(logs), ParseTransactionLogs(more));
  }

  lemma VerdictAfterRound(s: State, round: Round, id: EventId)
    requires VerdictsInv(s) && id in s.engine.pending
    ensures HasVerdictOf(WithEvents(s.engine.pending, round.events)[id].status, s.engine.pending[id].request,
                         LogsSince(s.rounds + [round], s.calls[s.engine.pending[id].statusTx].since))
  {
    var c := s.engine.pending[id];
    assert VerdictInv(s, c);
    var since := s.calls[c.statusTx].since;
    LogsOfOneMore(s.rounds, round, since);
    VerdictOfMoreLogs(c.request, c.status, LogsSince(s.rounds, since), round.logs);
  }

  lemma FinishKeepsVerdicts(maxBlockRange: Option<nat>, s: State, logs: seq<Log>, lookups: Lookups)
    requires VerdictsInv(s) && s.phase != Idle
    ensures VerdictsInv(AfterAction(maxBlockRange, s, Finish(logs, lookups)))
  {
    var s' := AfterAction(maxBlockRange, s, Finish(logs, lookups));
    var round := s'.rounds[|s.rounds|];
    forall id | id in s'.engine.pending ensures VerdictInv(s', s'.engine.pending[id]) {
      assert VerdictInv(s, s.engine.pending[id]);
      VerdictAfterRound(s, round, id);
    }
  }

  lemma VerifyKeepsVerdicts(maxBlockRange: Option<nat>, s: State, request: Request)
    requires VerdictsInv(s)
    ensures VerdictsInv(AfterAction(maxBlockRange, s, Verify(request)))
  {
    var s' := AfterAction(maxBlockRange, s, Verify(request));
    forall id | id in s'.engine.pending ensures VerdictInv(s', s'.engine.pending[id]) {
      if id != RequestId(request) {
        assert VerdictInv(s, s.engine.pending[id]);
      } else {
        assert LogsSince(s.rounds, |s.rounds|) == [];
        StatusOfLogs(request, []);
      }
    }
  }

  /** In every run the status of a pending confirmation is the verdict of the last log with
      its id among all rounds since its call, however they were cut into batches. */
  lemma {:induction false} RunKeepsVerdicts(maxBlockRange: Option<nat>, height: nat, actions: seq<Action>)
    ensures VerdictsInv(Run(maxBlockRange, height, actions))
  {
    if actions != [] {
      var s := Run(maxBlockRange, height, actions[..|actions| - 1]);
      RunKeepsVerdicts(maxBlockRange, height, actions[..|actions| - 1]);
      match actions[|actions| - 1]
      case Verify(request) => VerifyKeepsVerdicts(maxBlockRange, s, request);
      case Begin(h) => assert AfterAction(maxBlockRange, s, Begin(h)).(phase := s.phase) == s;
      case Fail => assert AfterAction(maxBlockRange, s, Fail).(phase := s.phase) == s;
      case Finish(logs, lookups) =>
        if s.phase != Idle {
          FinishKeepsVerdicts(maxBlockRange, s, logs, lookups);
        }
    }
  }

  // ---------------------------------------------------------------------------
  // The scan cursor
  // ---------------------------------------------------------------------------

  function CursorOf(start: nat, rounds: seq<Round>): nat {
    if rounds == [] then start else rounds[|rounds| - 1].toBlock
  }

  /** Rounds start where the previous one ended, and end where the height and the range allow. */
  ghost predicate ScanInv(maxBlockRange: Option<nat>, s: State) {
    && s.engine.cursor == CursorOf(s.start, s.rounds)
    && (forall i :: 0 <= i < |s.rounds| ==>
          && s.rounds[i].fromBlock == CursorOf(s.start, s.rounds[..i])
          && TargetOf(s.rounds[i].fromBlock, s.rounds[i].height, maxBlockRange) == Some(s.rounds[i].toBlock))
    && (s.phase.Fetching? ==>
          && s.phase.fromBlock == s.engine.cursor
          && TargetOf(s.engine.cursor, s.phase.height, maxBlockRange) == Some(s.phase.toBlock))
  }

  lemma FinishKeepsScan(maxBlockRange: Option<nat>, s: State, logs: seq<Log>, lookups: Lookups)
    requires ScanInv(maxBlockRange, s) && s.phase != Idle
    ensures ScanInv(maxBlockRange, AfterAction(maxBlockRange, s, Finish(logs, lookups)))
  {
    var s' := AfterAction(maxBlockRange, s, Finish(logs, lookups));
    forall i | 0 <= i < |s'.rounds|
      ensures s'.rounds[i].fromBlock == CursorOf(s'.start, s'.rounds[..i])
      ensures TargetOf(s'.rounds[i].fromBlock, s'.rounds[i].height, maxBlockRange) == Some(s'.rounds[i].toBlock)
    {
      assert s'.rounds[..i] == s.rounds[..i];
      if i == |s.rounds| {
        assert s.rounds[..i] == s.rounds;
      }
    }
  }

  lemma {:induction false} RunKeepsScan(maxBlockRange: Option<nat>, height: nat, actions: seq<Action>)
    ensures ScanInv(maxBlockRange, Run(maxBlockRange, height, actions))
    ensures Run(maxBlockRange, height, actions).start == height
  {
    if actions != [] {
      var s := Run(maxBlockRange, height, actions[..|actions| - 1]);
      RunKeepsScan(maxBlockRange, height, actions[..|actions| - 1]);
      match actions[|actions| - 1]
      case Verify(request) => assert AfterVerify(s.engine, request).cursor == s.engine.cursor;
      case Begin(h) =>
      case Fail =>
      case Finish(logs, lookups) =>
        if s.phase != Idle {
          FinishKeepsScan(maxBlockRange, s, logs, lookups);
        }
    }
  }

  /** There is something to query exactly below the height. Without a range a round goes up to
      the height, in range up to the nearer of both, so it never passes the height it read.
      Out of range, when the u64 sum wraps, it moves the cursor back. */
  lemma TargetBounds(cursor: nat, height: nat, maxBlockRange: Option<nat>)
    requires cursor < U64_MODULUS && height < U64_MODULUS
    requires maxBlockRange.Some? ==> maxBlockRange.value < U64_MODULUS
    ensures TargetOf(cursor, height, maxBlockRange).Some? <==> cursor < height
    ensures cursor < height ==>
              var to := TargetOf(cursor, height, maxBlockRange).value;
              && to <= height
              && (to >= cursor <==> maxBlockRange.None? || cursor + maxBlockRange.value < U64_MODULUS)
              && (to > cursor <==> maxBlockRange.None? || 0 < maxBlockRange.value < U64_MODULUS - cursor)
              && (maxBlockRange.None? ==> to == height)
              && (maxBlockRange.Some? && to >= cursor && cursor + maxBlockRange.value >= height ==> to == height)
              && (maxBlockRange.Some? && to >= cursor && cursor + maxBlockRange.value < height ==>
                    to == cursor + maxBlockRange.value)
  {
    if maxBlockRange.Some? {
      var sum := cursor + maxBlockRange.value;
      if sum >= U64_MODULUS {
        assert sum % U64_MODULUS == sum - U64_MODULUS;
      }
    }
  }

  /** So a run can move the cursor back: a start at block 1, a height of 2 and the largest
      range that a u64 holds give a round that ends at block 0. */
  lemma CursorCanMoveBack(logs: seq<Log>, lookups: Lookups)
    ensures TargetOf(1, 2, Some(U64_MODULUS - 1)) == Some(0)
    ensures Run(Some(U64_MODULUS - 1), 1, [Begin(2), Finish(logs, lookups)]).engine.cursor == 0
  {
    assert (1 + (U64_MODULUS - 1)) % U64_MODULUS == 0;
    var range := Some(U64_MODULUS - 1);
    var s := AfterAction(range, Started(1), Begin(2));
    assert s.phase == Fetching(2, 1, 0);
    assert [Begin(2)][..0] == [] && [Begin(2), Finish(logs, lookups)][..1] == [Begin(2)];
    assert Run(range, 1, [Begin(2)]) == s;
    assert AfterAction(range, s, Finish(logs, lookups)).engine.cursor == 0;
  }

  /** In every run, the cursor moves from round to round within the bounds of TargetBounds. */
  lemma RoundsStayInBounds(maxBlockRange: Option<nat>, height: nat, actions: seq<Action>, i: nat)
    requires maxBlockRange.Some? ==> maxBlockRange.value < U64_MODULUS
    requires i < |Run(maxBlockRange, height, actions).rounds|
    requires Run(maxBlockRange, height, actions).rounds[i].height < U64_MODULUS
    ensures var r := Run(maxBlockRange, height, actions).rounds[i];
            && r.fromBlock < r.height && r.toBlock <= r.height
            && (r.fromBlock <= r.toBlock <==> maxBlockRange.None? || r.fromBlock + maxBlockRange.value < U64_MODULUS)
            && (maxBlockRange.None? ==> r.toBlock == r.height)
            && (maxBlockRange.Some? && r.fromBlock <= r.toBlock < r.height ==>
                  r.toBlock == r.fromBlock + maxBlockRange.value)
            && (maxBlockRange.Some? && r.fromBlock <= r.toBlock ==> r.toBlock - r.fromBlock <= maxBlockRange.value)
  {
    RunKeepsScan(maxBlockRange, height, actions);
    var r := Run(maxBlockRange, height, actions).rounds[i];
    TargetBounds(r.fromBlock, r.height, maxBlockRange);
  }

  /** The inclusive ranges of consecutive rounds join up: no block between the start and
      where the last one ended is skipped. */
  lemma {:induction false} RoundsCover(start: nat, rounds: seq<Round>, block: nat) returns (i: nat)
    requires rounds != [] && start <= block <= CursorOf(start, rounds)
    requires forall k :: 0 <= k < |rounds| ==> rounds[k].fromBlock == CursorOf(start, rounds[..k])
    ensures i < |rounds| && rounds[i].fromBlock <= block <= rounds[i].toBlock
  {
    var n := |rounds| - 1;
    if rounds[n].fromBlock <= block {
      i := n;
    } else {
      forall k | 0 <= k < n ensures rounds[..n][k].fromBlock == CursorOf(start, rounds[..n][..k]) {
        assert rounds[..n][..k] == rounds[..k];
      }
      i := RoundsCover(start, rounds[..n], block);
    }
  }

  lemma EveryBlockScanned(maxBlockRange: Option<nat>, height: nat, actions: seq<Action>, block: nat) returns (i: nat)
    requires height <= block <= Run(maxBlockRange, height, actions).engine.cursor
    requires Run(maxBlockRange, height, actions).rounds != []
    ensures var rounds := Run(maxBlockRange, height, actions).rounds;
            i < |rounds| && rounds[i].fromBlock <= block <= rounds[i].toBlock
  {
    RunKeepsScan(maxBlockRange, height, actions);
    i := RoundsCover(height, Run(maxBlockRange, height, actions).rounds, block);
  }

  /** The cursor after `n` successful rounds that all read the same height. */
  function CatchUp(cursor: nat, height: nat, range: nat, n: nat): nat {
    if n == 0 then cursor
    else
      var before := CatchUp(cursor, height, range, n - 1);
      match TargetOf(before, height, Some(range))
      case Some(to) => to
      case None => before
  }

  function RoundsNeeded(distance: nat, range: nat): nat
    requires range > 0
  {
    if distance == 0 then 0 else if distance <= range then 1 else 1 + RoundsNeeded(distance - range, range)
  }

  lemma {:induction false} NeededIsQuotient(distance: nat, range: nat, n: nat)
    requires range > 0
    ensures n >= RoundsNeeded(distance, range) <==> n * range >= distance
    decreases distance
  {
    if distance > range {
      if n > 0 {
        NeededIsQuotient(distance - range, range, n - 1);
        assert n * range == (n - 1) * range + range;
      } else {
        assert n * range == 0;
      }
    } else if n > 0 {
      assert n * range >= range by {
        assert n * range == (n - 1) * range + range;
        assert (n - 1) * range >= 0;
      }
    }
  }

  /** One round towards a height that is read again and again. */
  lemma CatchUpStep(cursor: nat, height: nat, range: nat, n: nat)
    requires n > 0 && CatchUp(cursor, height, range, n - 1) <= height
    requires var before := CatchUp(cursor, height, range, n - 1); before < height ==> before + range < U64_MODULUS
    ensures var before := CatchUp(cursor, height, range, n - 1);
            CatchUp(cursor, height, range, n) == if before + range < height then before + range else height
  {
    var before := CatchUp(cursor, height, range, n - 1);
    if before < height {
      assert (before + range) % U64_MODULUS == before + range;
    }
  }

  lemma MulNonNegative(a: nat, b: nat)
    ensures a * b >= 0
  {
  }

  /** The largest sum of cursor and range formed until the height is reached. */
  function LastSum(cursor: nat, height: nat, range: nat): nat
    requires range > 0 && cursor <= height
  {
    MulNonNegative(RoundsNeeded(height - cursor, range), range);
    cursor + RoundsNeeded(height - cursor, range) * range
  }

  lemma SumsBelowLast(cursor: nat, height: nat, range: nat, n: nat)
    requires 0 < range && cursor <= height && n > 0 && cursor + (n - 1) * range < height
    ensures cursor + n * range <= LastSum(cursor, height, range)
  {
    var needed := RoundsNeeded(height - cursor, range);
    NeededIsQuotient(height - cursor, range, n - 1);
    MulDist(needed - n, n, range);
    MulNonNegative(needed - n, range);
  }

  lemma {:induction false} CatchUpCursor(cursor: nat, height: nat, range: nat, n: nat, travelled: nat)
    requires 0 < range && cursor <= height && LastSum(cursor, height, range) < U64_MODULUS
    requires travelled == n * range
    ensures CatchUp(cursor, height, range, n) == if cursor + travelled < height then cursor + travelled else height
  {
    if n > 0 {
      MulDist(n - 1, 1, range);
      MulNonNegative(n - 1, range);
      CatchUpCursor(cursor, height, range, n - 1, travelled - range);
      if cursor + (travelled - range) < height {
        SumsBelowLast(cursor, height, range, n);
      }
      CatchUpStep(cursor, height, range, n);
    }
  }

  /** For a fixed height, while no sum wraps, each round brings the cursor nearer by the
      range, and the height is reached after exactly the rounded-up quotient of distance and
      range. */
  lemma CatchUpRounds(cursor: nat, height: nat, range: nat, n: nat)
    requires 0 < range && cursor <= height && LastSum(cursor, height, range) < U64_MODULUS
    ensures CatchUp(cursor, height, range, n) == if cursor + n * range < height then cursor + n * range else height
    ensures CatchUp(cursor, height, range, n) == height <==> n >= RoundsNeeded(height - cursor, range)
  {
    MulNonNegative(n, range);
    CatchUpCursor(cursor, height, range, n, n * range);
    NeededIsQuotient(height - cursor, range, n);
  }

  /** A cursor that no sum took past the height yet. */
  lemma {:induction false} BelowHeight(cursor: nat, height: nat, range: nat, n: nat, travelled: nat)
    requires cursor + travelled < height < U64_MODULUS && travelled == n * range
    ensures CatchUp(cursor, height, range, n) == cursor + travelled
  {
    if n > 0 {
      MulDist(n - 1, 1, range);
      MulNonNegative(n - 1, range);
      BelowHeight(cursor, height, range, n - 1, travelled - range);
      CatchUpStep(cursor, height, range, n);
    }
  }

  /** The height is reached in that number of rounds exactly when no sum on the way wraps. */
  lemma CatchUpReachesIff(cursor: nat, height: nat, range: nat)
    requires 0 < range < U64_MODULUS && cursor < height < U64_MODULUS
    ensures CatchUp(cursor, height, range, RoundsNeeded(height - cursor, range)) == height
       <==> LastSum(cursor, height, range) < U64_MODULUS
  {
    var needed := RoundsNeeded(height - cursor, range);
    if LastSum(cursor, height, range) < U64_MODULUS {
      CatchUpRounds(cursor, height, range, needed);
    } else {
      LastSumWraps(cursor, height, range, needed);
    }
  }

  /** When a sum wraps, it is the last one, and it takes the cursor below the height. */
  lemma LastSumWraps(cursor: nat, height: nat, range: nat, needed: nat)
    requires 0 < range < U64_MODULUS && cursor < height < U64_MODULUS
    requires needed == RoundsNeeded(height - cursor, range) && LastSum(cursor, height, range) >= U64_MODULUS
    ensures CatchUp(cursor, height, range, needed) < height
  {
    var travelled := (needed - 1) * range;
    MulNonNegative(needed - 1, range);
    MulDist(needed - 1, 1, range);
    NeededIsQuotient(height - cursor, range, needed - 1);
    BelowHeight(cursor, height, range, needed - 1, travelled);
    WrappedTarget(cursor + travelled, height, range);
  }

  lemma WrappedTarget(before: nat, height: nat, range: nat)
    requires range < U64_MODULUS && before < height < U64_MODULUS && before + range >= U64_MODULUS
    ensures TargetOf(before, height, Some(range)).Some? && TargetOf(before, height, Some(range)).value < height
  {
    assert (before + range) % U64_MODULUS == before + range - U64_MODULUS;
  }

  // ---------------------------------------------------------------------------
  // Catching up in a run
  // ---------------------------------------------------------------------------

  predicate ReadsOnly(more: seq<Action>, height: nat) {
    forall i :: 0 <= i < |more| && more[i].Begin? ==> more[i].height == height
  }

  /** Between the states the cursor moved as the rounds that were successful say. */
  ghost predicate CatchesUp(range: nat, s: State, s': State, height: nat) {
    && |s.rounds| <= |s'.rounds|
    && s'.engine.cursor == CatchUp(s.engine.cursor, height, range, |s'.rounds| - |s.rounds|)
    && (s'.phase.Fetching? ==> TargetOf(s'.engine.cursor, height, Some(range)) == Some(s'.phase.toBlock))
  }

  lemma StepCatchesUp(range: nat, s: State, t: State, a: Action, height: nat)
    requires CatchesUp(range, s, t, height)
    requires a.Begin? ==> a.height == height
    ensures CatchesUp(range, s, AfterAction(Some(range), t, a), height)
  {
  }

  lemma OneMoreStep(range: nat, start: nat, actions: seq<Action>, a: Action)
    ensures Run(Some(range), start, actions + [a]) == AfterAction(Some(range), Run(Some(range), start, actions), a)
  {
    assert (actions + [a])[..|actions|] == actions;
  }

  /** However requests and failures interleave, from a moment between two rounds on, the
      successful rounds move the cursor as CatchUp says, while the node's height stays. */
  lemma {:induction false} RunCatchesUp(range: nat, start: nat, before: seq<Action>, more: seq<Action>, height: nat)
    requires Run(Some(range), start, before).phase == Idle && ReadsOnly(more, height)
    ensures CatchesUp(range, Run(Some(range), start, before), Run(Some(range), start, before + more), height)
    decreases |more|
  {
    if more == [] {
      assert before + more == before;
    } else {
      var front, a := more[..|more| - 1], more[|more| - 1];
      RunCatchesUp(range, start, before, front, height);
      OneMoreStep(range, start, before + front, a);
      assert before + more == before + front + [a];
      StepCatchesUp(range, Run(Some(range), start, before), Run(Some(range), start, before + front), a, height);
    }
  }

  /** The height is reached with this number of rounds exactly when no sum on the way wraps,
      and while none does, not before. */
  ghost predicate ReachedAsNeeded(cursor: nat, height: nat, range: nat, n: nat, cursor': nat)
    requires 0 < range && cursor < height
  {
    var needed, sum := RoundsNeeded(height - cursor, range), LastSum(cursor, height, range);
    && (n == needed ==> (cursor' == height <==> sum < U64_MODULUS))
    && (sum < U64_MODULUS ==> (cursor' == height <==> n >= needed))
  }

  lemma CatchUpMeans(cursor: nat, height: nat, range: nat, n: nat)
    requires 0 < range < U64_MODULUS && cursor < height < U64_MODULUS
    ensures ReachedAsNeeded(cursor, height, range, n, CatchUp(cursor, height, range, n))
  {
    CatchUpReachesIff(cursor, height, range);
    if LastSum(cursor, height, range) < U64_MODULUS {
      CatchUpRounds(cursor, height, range, n);
    }
  }

  /** So in every run, from below a height that stays, the cursor is at the height after
      RoundsNeeded successful rounds exactly when no sum on the way wraps, and while none
      does, it gets there with that round and not before. */
  lemma RunReachesHeightIff(range: nat, start: nat, before: seq<Action>, more: seq<Action>, height: nat)
    requires Run(Some(range), start, before).phase == Idle && ReadsOnly(more, height)
    requires 0 < range < U64_MODULUS && Run(Some(range), start, before).engine.cursor < height < U64_MODULUS
    ensures var s, s' := Run(Some(range), start, before), Run(Some(range), start, before + more);
            && |s.rounds| <= |s'.rounds|
            && ReachedAsNeeded(s.engine.cursor, height, range, |s'.rounds| - |s.rounds|, s'.engine.cursor)
  {
    RunCatchesUp(range, start, before, more, height);
    StatesCaughtUp(range, Run(Some(range), start, before), Run(Some(range), start, before + more), height);
  }

  lemma StatesCaughtUp(range: nat, s: State, s': State, height: nat)
    requires CatchesUp(range, s, s', height)
    requires 0 < range < U64_MODULUS && s.engine.cursor < height < U64_MODULUS
    ensures ReachedAsNeeded(s.engine.cursor, height, range, |s'.rounds| - |s.rounds|, s'.engine.cursor)
  {
    CatchUpMeans(s.engine.cursor, height, range, |s'.rounds| - |s.rounds|);
  }

  /** Undisturbed rounds, with what the node answers in each. */
  function Undisturbed(height: nat, answers: seq<(seq<Log>, Lookups)>): seq<Action> {
    if answers == [] then []
    else
      var n := |answers| - 1;
      Undisturbed(height, answers[..n]) + [Begin(height), Finish(answers[n].0, answers[n].1)]
  }

  lemma TwoSteps(range: nat, s: State, height: nat, logs: seq<Log>, lookups: Lookups)
    requires s.phase == Idle
    ensures var s' := AfterAction(Some(range), AfterAction(Some(range), s, Begin(height)), Finish(logs, lookups));
            s'.phase == Idle && s'.engine.cursor == CatchUp(s.engine.cursor, height, range, 1)
  {
    assert CatchUp(s.engine.cursor, height, range, 0) == s.engine.cursor;
  }

  lemma RoundIsTwoSteps(range: nat, start: nat, actions: seq<Action>, height: nat, logs: seq<Log>, lookups: Lookups)
    ensures Run(Some(range), start, actions + [Begin(height), Finish(logs, lookups)])
         == AfterAction(Some(range), AfterAction(Some(range), Run(Some(range), start, actions), Begin(height)),
                        Finish(logs, lookups))
  {
    assert actions + [Begin(height), Finish(logs, lookups)] == actions + [Begin(height)] + [Finish(logs, lookups)];
    OneMoreStep(range, start, actions, Begin(height));
    OneMoreStep(range, start, actions + [Begin(height)], Finish(logs, lookups));
  }

  /** After `n` of them the cursor is where CatchUp says, even when it arrived before. */
  lemma {:induction false} UndisturbedCursor(range: nat, start: nat, before: seq<Action>, height: nat,
                                             answers: seq<(seq<Log>, Lookups)>)
    requires Run(Some(range), start, before).phase == Idle
    ensures var s, s' := Run(Some(range), start, before),
                         Run(Some(range), start, before + Undisturbed(height, answers));
            s'.phase == Idle && s'.engine.cursor == CatchUp(s.engine.cursor, height, range, |answers|)
    decreases |answers|
  {
    if answers == [] {
      assert before + Undisturbed(height, answers) == before;
    } else {
      var n := |answers| - 1;
      var front := before + Undisturbed(height, answers[..n]);
      UndisturbedCursor(range, start, before, height, answers[..n]);
      RoundIsTwoSteps(range, start, front, height, answers[n].0, answers[n].1);
      TwoSteps(range, Run(Some(range), start, front), height, answers[n].0, answers[n].1);
      assert before + Undisturbed(height, answers) == front + [Begin(height), Finish(answers[n].0, answers[n].1)];
      var cursor := Run(Some(range), start, before).engine.cursor;
      assert CatchUp(CatchUp(cursor, height, range, n), height, range, 1) == CatchUp(cursor, height, range, n + 1);
    }
  }

  /** A failed round leaves no trace; the next one asks for the same blocks again, up to what its
      own height allows. */
  lemma FailureIsRetried(maxBlockRange: Option<nat>, start: nat, actions: seq<Action>, height: nat)
    ensures var s := Run(maxBlockRange, start, actions);
            var s' := Run(maxBlockRange, start, actions + [Fail] + [Begin(height)]);
            && s'.engine == s.engine && s'.rounds == s.rounds && s'.calls == s.calls
            && (height <= s.engine.cursor ==> s'.phase == Idle)
            && (height > s.engine.cursor ==>
                  s'.phase == Fetching(height, s.engine.cursor, TargetOf(s.engine.cursor, height, maxBlockRange).value))
  {
    assert (actions + [Fail])[..|actions|] == actions;
    assert (actions + [Fail] + [Begin(height)])[..|actions| + 1] == actions + [Fail];
  }

  // ---------------------------------------------------------------------------
  // What an answer rests on
  // ---------------------------------------------------------------------------

  /** The block of the event plus the blocks to wait for are within the round. */
  predicate IsDue(request: Request, toBlock: nat) {
    request.vote.eventBlockNumber + request.blocksToConfirm <= toBlock
  }

  /** The round answers the call with this status: the call was due, and either the last log
      with its id since the call disproves the vote, or the receipt decided. */
  ghost predicate RoundJustifies(rounds: seq<Round>, r: nat, call: Call, v: VerificationStatus) {
    && call.since <= r < |rounds|
    && IsDue(call.request, rounds[r].toBlock)
    && var disproved := LastLogDisproves(call.request, LogsSince(rounds[..r + 1], call.since));
       var lookup := rounds[r].lookups(RequestId(call.request));
       match v
       case Exists => !disproved && lookup.Fetched? && ReceiptProves(call.request, lookup.receipt)
       case NotExists => disproved || (lookup.Fetched? && !ReceiptProves(call.request, lookup.receipt))
  }

  ghost predicate AnswersInv(s: State) {
    forall p :: p in s.engine.answers ==>
      p.0 < |s.calls| && exists r :: RoundJustifies(s.rounds, r, s.calls[p.0], p.1)
  }

  lemma JustifiedLater(rounds: seq<Round>, round: Round, r: nat, call: Call, v: VerificationStatus)
    requires RoundJustifies(rounds, r, call, v)
    ensures RoundJustifies(rounds + [round], r, call, v)
  {
    assert (rounds + [round])[..r + 1] == rounds[..r + 1];
  }

  lemma FinishJustifies(maxBlockRange: Option<nat>, s: State, logs: seq<Log>, lookups: Lookups,
                        p: (Ticket, VerificationStatus))
    requires VerdictsInv(s) && KeyedById(s.engine.pending) && s.phase != Idle
    requires p in AfterAction(maxBlockRange, s, Finish(logs, lookups)).engine.answers && p !in s.engine.answers
    ensures p.0 < |s.calls|
    ensures RoundJustifies(AfterAction(maxBlockRange, s, Finish(logs, lookups)).rounds, |s.rounds|, s.calls[p.0], p.1)
  {
    var s' := AfterAction(maxBlockRange, s, Finish(logs, lookups));
    var round := s'.rounds[|s.rounds|];
    var updated := WithEvents(s.engine.pending, round.events);
    var id := SentMeans(updated, round.toBlock, lookups, p);
    assert VerdictInv(s, s.engine.pending[id]);
    VerdictAfterRound(s, round, id);
    assert s'.rounds[..|s.rounds| + 1] == s.rounds + [round];
    if lookups(id).Fetched? {
      VerdictIffProof(updated[id].request, lookups(id).receipt);
    }
  }

  lemma StepKeepsAnswers(maxBlockRange: Option<nat>, s: State, a: Action)
    requires VerdictsInv(s) && KeyedById(s.engine.pending) && AnswersInv(s)
    ensures AnswersInv(AfterAction(maxBlockRange, s, a))
  {
    var s' := AfterAction(maxBlockRange, s, a);
    forall p | p in s'.engine.answers
      ensures p.0 < |s'.calls| && exists r :: RoundJustifies(s'.rounds, r, s'.calls[p.0], p.1)
    {
      if p in s.engine.answers {
        var r :| RoundJustifies(s.rounds, r, s.calls[p.0], p.1);
        if a.Finish? && s.phase != Idle {
          JustifiedLater(s.rounds, s'.rounds[|s.rounds|], r, s.calls[p.0], p.1);
        }
        assert RoundJustifies(s'.rounds, r, s'.calls[p.0], p.1);
      } else {
        FinishJustifies(maxBlockRange, s, a.logs, a.lookups, p);
        assert RoundJustifies(s'.rounds, |s.rounds|, s'.calls[p.0], p.1);
      }
    }
  }

  /** In every run each answer rests on one round after its call: Exists on a receipt that
      proves the request, NotExists on an Invalid last verdict or a receipt that does not. */
  lemma {:induction false} AnswersAreJustified(maxBlockRange: Option<nat>, height: nat, actions: seq<Action>)
    ensures AnswersInv(Run(maxBlockRange, height, actions))
  {
    if actions != [] {
      var front := actions[..|actions| - 1];
      AnswersAreJustified(maxBlockRange, height, front);
      RunKeepsVerdicts(maxBlockRange, height, front);
      RunConserves(maxBlockRange, height, front);
      StepKeepsAnswers(maxBlockRange, Run(maxBlockRange, height, front), actions[|actions| - 1]);
    }
  }

  // ---------------------------------------------------------------------------
  // What a round does to a pending call
  // ---------------------------------------------------------------------------

  /** The call was answered Exists, answered NotExists, or left, depending on the logs since it
      was made and on what the node says about its transaction. */
  ghost predicate IsSettled(request: Request, seen: seq<Log>, lookup: Lookup, toBlock: nat, t: Ticket, e': Engine) {
    var due, disproved := IsDue(request, toBlock), LastLogDisproves(request, seen);
    && ((t, Exists) in e'.answers <==>
          due && !disproved && lookup.Fetched? && ReceiptProves(request, lookup.receipt))
    && ((t, NotExists) in e'.answers <==>
          due && (disproved || (lookup.Fetched? && !ReceiptProves(request, lookup.receipt))))
    && (PendingTicket(e', t) <==> !due || (!disproved && lookup == Failed))
  }

  /** In every run, the end of a round does exactly this to each pending call. */
  lemma RoundSettles(maxBlockRange: Option<nat>, height: nat, actions: seq<Action>, logs: seq<Log>, lookups: Lookups,
                     id: EventId)
    requires Run(maxBlockRange, height, actions).phase.Fetching?
    requires id in Run(maxBlockRange, height, actions).engine.pending
    ensures var s := Run(maxBlockRange, height, actions);
            var s' := Run(maxBlockRange, height, actions + [Finish(logs, lookups)]);
            var c := s.engine.pending[id];
            && c.statusTx < |s.calls| && s.calls[c.statusTx].request == c.request
            && IsSettled(c.request, LogsSince(s'.rounds, s.calls[c.statusTx].since), lookups(id), s.phase.toBlock,
                         c.statusTx, s'.engine)
  {
    assert (actions + [Finish(logs, lookups)])[..|actions|] == actions;
    RunConserves(maxBlockRange, height, actions);
    RunKeepsVerdicts(maxBlockRange, height, actions);
    RunConserves(maxBlockRange, height, actions + [Finish(logs, lookups)]);
    FinishSettles(maxBlockRange, Run(maxBlockRange, height, actions), logs, lookups, id);
  }

  lemma FinishSettles(maxBlockRange: Option<nat>, s: State, logs: seq<Log>, lookups: Lookups, id: EventId)
    requires s.phase.Fetching? && id in s.engine.pending && Conserved(s.engine) && VerdictsInv(s)
    requires Conserved(AfterAction(maxBlockRange, s, Finish(logs, lookups)).engine)
    ensures var s', c := AfterAction(maxBlockRange, s, Finish(logs, lookups)), s.engine.pending[id];
            && VerdictInv(s, c)
            && IsSettled(c.request, LogsSince(s'.rounds, s.calls[c.statusTx].since), lookups(id), s.phase.toBlock,
                         c.statusTx, s'.engine)
  {
    var s', c := AfterAction(maxBlockRange, s, Finish(logs, lookups)), s.engine.pending[id];
    assert VerdictInv(s, c);
    VerdictAfterRound(s, s'.rounds[|s.rounds|], id);
    EngineSettles(s.engine, s.phase.toBlock, logs, lookups, id, LogsSince(s'.rounds, s.calls[c.statusTx].since));
  }

  lemma EngineSettles(e: Engine, to: nat, logs: seq<Log>, lookups: Lookups, id: EventId, seen: seq<Log>)
    requires id in e.pending && Conserved(e)
    requires e.pending[id].target == e.pending[id].request.vote.eventBlockNumber + e.pending[id].request.blocksToConfirm
    requires Conserved(AfterRound(e, to, ParseTransactionLogs(logs), lookups))
    requires HasVerdictOf(WithEvents(e.pending, ParseTransactionLogs(logs))[id].status, e.pending[id].request, seen)
    ensures IsSettled(e.pending[id].request, seen, lookups(id), to, e.pending[id].statusTx,
                      AfterRound(e, to, ParseTransactionLogs(logs), lookups))
  {
    var c, events := e.pending[id], ParseTransactionLogs(logs);
    var e' := AfterRound(e, to, events, lookups);
    LeftAfterRound(e, to, events, lookups, id);
    assert PendingTicket(e, c.statusTx);
    assert PendingTicket(e', c.statusTx) <==> id in e'.pending by {
      assert id in e'.pending ==> e'.pending[id].statusTx == c.statusTx;
      forall k | k in e'.pending && e'.pending[k].statusTx == c.statusTx ensures k == id {
        assert k in e.pending && e.pending[k].statusTx == c.statusTx;
      }
    }
    if c.target <= to {
      AnsweredByRound(e, to, events, lookups, id);
      if lookups(id).Fetched? {
        VerdictIffProof(c.request, lookups(id).receipt);
      }
    }
    RoundAnswers(e, to, events, lookups, c.statusTx);
  }
}
