/**
 * What the harvest loop of testRange guarantees, stated over Step and Run.
 */
module HarvestLemmas {
  import opened Wrappers
  import opened EpochStore
  import opened CsvOrder
  import opened FlushPolicy
  import opened Harvest

  /** The outcomes of a list of fetch attempts, in order. */
  function Outcomes(attempts: seq<Attempt>): (o: seq<FetchOutcome>)
    ensures |o| == |attempts|
    ensures forall i :: 0 <= i < |o| ==> o[i] == attempts[i].outcome
  {
    seq(|attempts|, i requires 0 <= i < |attempts| => attempts[i].outcome)
  }

  /** The number of successful fetches in a list of attempts. */
  function OkCount(attempts: seq<Attempt>): nat
  {
    if attempts == [] then 0
    else (if attempts[0].outcome.Ok? then 1 else 0) + OkCount(attempts[1..])
  }

  /**
   * Skip or fetch (lines 150-160): the loop fetches exactly when it may run,
   * the next epoch is not known to have a successor and a fetch outcome is
   * left; a fetch asks for the next epoch and records the delay flag; a
   * known epoch with a successor is passed over with nothing else changed.
   */
  lemma StepFetchDecision(m: Machine, canRun: bool)
    ensures var s := Step(m, canRun);
      && |s.m.attempts| <= |m.attempts| + 1
      && s.m.attempts[..|m.attempts|] == m.attempts
      && (|s.m.attempts| == |m.attempts| + 1 <==> canRun && !IsKnownTerminal(m.epochs, m.epNum + 1) && m.script != [])
    ensures var s := Step(m, canRun);
      |s.m.attempts| == |m.attempts| + 1 ==>
        s.m.attempts[|m.attempts|] == Attempt(m.epNum + 1, m.delayNeeded, m.script[0]) && s.m.script == m.script[1..]
    ensures canRun && IsKnownTerminal(m.epochs, m.epNum + 1) ==> Step(m, canRun) == Next(m.(epNum := m.epNum + 1))
  {
  }

  /**
   * Chaining two stretches of a run: if the attempts grew from `pre` to
   * `mid` by at most one while consuming script0 down to script1, and then
   * from `mid` to `all` while consuming script1 down to script2, then `all`
   * extends `pre` by the outcomes consumed from script0 down to script2.
   */
  lemma ChainConsumption(pre: seq<Attempt>, mid: seq<Attempt>, all: seq<Attempt>,
                         script0: seq<FetchOutcome>, script1: seq<FetchOutcome>, script2: seq<FetchOutcome>)
    requires |pre| <= |mid| <= |pre| + 1 && mid[..|pre|] == pre
    requires script0 == Outcomes(mid[|pre|..]) + script1
    requires |mid| <= |all| && all[..|mid|] == mid
    requires script1 == Outcomes(all[|mid|..]) + script2
    ensures all[..|pre|] == pre
    ensures script0 == Outcomes(all[|pre|..]) + script2
  {
    assert all[..|pre|] == all[..|mid|][..|pre|];
    if |mid| == |pre| + 1 {
      assert all[|pre|] == mid[|pre|];
      assert Outcomes(all[|pre|..]) == [mid[|pre|].outcome] + Outcomes(all[|mid|..]);
    } else {
      assert all[|pre|..] == all[|mid|..];
    }
  }

  /**
   * A run consumes the scripted outcomes in order, one per fetch attempt,
   * and only appends to the list of attempts.
   */
  lemma {:induction false} RunConsumesScriptInOrder(m: Machine, canRun: bool)
    ensures var r := Run(m, canRun);
      && r.m.attempts[..|m.attempts|] == m.attempts
      && m.script == Outcomes(r.m.attempts[|m.attempts|..]) + r.m.script
    decreases |m.script|, Above(m.epochs.Keys, m.epNum)
  {
    var s := Step(m, canRun);
    var r := Run(m, canRun);
    assert |s.m.attempts| <= |r.m.attempts| && r.m.attempts[..|s.m.attempts|] == s.m.attempts
        && s.m.script == Outcomes(r.m.attempts[|s.m.attempts|..]) + r.m.script by {
      RunUnfold(m, canRun);
      if s.Next? {
        StepProgress(m, canRun);
        RunConsumesScriptInOrder(s.m, canRun);
      }
    }
    assert |m.attempts| <= |s.m.attempts| <= |m.attempts| + 1 && s.m.attempts[..|m.attempts|] == m.attempts
        && m.script == Outcomes(s.m.attempts[|m.attempts|..]) + s.m.script by {
      StepFetchDecision(m, canRun);
      if |s.m.attempts| == |m.attempts| + 1 {
        assert s.m.attempts[|m.attempts|..] == [s.m.attempts[|m.attempts|]];
      } else {
        assert s.m.attempts[|m.attempts|..] == [];
      }
    }
    ChainConsumption(m.attempts, s.m.attempts, r.m.attempts, m.script, s.m.script, r.m.script);
  }

  /** The first epoch at or after n that is not known to have a successor. */
  function FirstUnsettled(epochs: map<nat, Epoch>, n: nat): (k: nat)
    ensures n <= k && !IsKnownTerminal(epochs, k)
    ensures forall j :: n <= j < k ==> IsKnownTerminal(epochs, j)
    decreases Above(epochs.Keys, n) + (if n in epochs then 1 else 0)
  {
    if IsKnownTerminal(epochs, n) then
      AboveStep(epochs.Keys, n);
      FirstUnsettled(epochs, n + 1)
    else n
  }

  /**
   * The first fetch of a run asks for the first epoch after the cursor that
   * is not known to have a successor, and is delayed only if delayNeeded was
   * already set. From the start of testRange that is the first such epoch
   * from 95 on, fetched without delay.
   */
  lemma {:induction false} FirstFetch(m: Machine, canRun: bool)
    ensures var r := Run(m, canRun);
      |r.m.attempts| > |m.attempts| ==>
        && r.m.attempts[|m.attempts|].epNum == FirstUnsettled(m.epochs, m.epNum + 1)
        && r.m.attempts[|m.attempts|].delayed == m.delayNeeded
    decreases |m.script|, Above(m.epochs.Keys, m.epNum)
  {
    StepFetchDecision(m, canRun);
    RunUnfold(m, canRun);
    match Step(m, canRun)
    case Stop(m', why) =>
    case Next(m') =>
      StepProgress(m, canRun);
      RunConsumesScriptInOrder(m', canRun);
      if |m'.attempts| == |m.attempts| {
        FirstFetch(m', canRun);
      } else {
        var r := Run(m, canRun);
        assert r.m.attempts[..|m'.attempts|][|m.attempts|] == r.m.attempts[|m.attempts|];
      }
  }

  /** From the start of testRange, the first epoch considered is 95 and the first fetch is not delayed. */
  lemma FirstFetchFromStart(epochs: map<nat, Epoch>, pending: nat, writes: seq<seq<Epoch>>,
                            retries: Option<nat>, script: seq<FetchOutcome>, canRun: bool)
    ensures var r := Run(Start(epochs, pending, writes, retries, script), canRun);
      |r.m.attempts| > 0 ==>
        && r.m.attempts[0].epNum == FirstUnsettled(epochs, StartEpochNum)
        && !r.m.attempts[0].delayed
        && (!IsKnownTerminal(epochs, StartEpochNum) ==> r.m.attempts[0].epNum == StartEpochNum)
  {
    FirstFetch(Start(epochs, pending, writes, retries, script), canRun);
  }

  /** No scripted fetch reports epoch n as having no successor. */
  ghost predicate NeverReportedLatest(script: seq<FetchOutcome>, n: nat)
  {
    forall i :: 0 <= i < |script| && script[i].Ok? && script[i].epoch.epochNum == n ==> HasSuccessor(script[i].epoch)
  }

  /** One pass neither fetches nor unsettles an epoch known to have a successor. */
  lemma StepKeepsTerminal(m: Machine, canRun: bool, n: nat)
    requires IsKnownTerminal(m.epochs, n)
    requires NeverReportedLatest(m.script, n)
    ensures var s := Step(m, canRun);
      && IsKnownTerminal(s.m.epochs, n)
      && NeverReportedLatest(s.m.script, n)
      && (|s.m.attempts| > |m.attempts| ==> s.m.attempts[|m.attempts|].epNum != n)
  {
    StepFetchDecision(m, canRun);
    var s := Step(m, canRun);
    if s.m.script != m.script {
      assert s.m.script == m.script[1..];
      if m.script[0].Ok? && m.script[0].epoch.epochNum == n {
        assert HasSuccessor(m.script[0].epoch);
      }
      assert forall i :: 0 <= i < |s.m.script| ==> s.m.script[i] == m.script[i + 1];
    }
  }

  /**
   * An epoch known to have a successor is never fetched again and keeps a
   * successor, provided no fetch reports that epoch as having none.
   */
  lemma {:induction false} TerminalNeverRefetched(m: Machine, canRun: bool, n: nat)
    requires IsKnownTerminal(m.epochs, n)
    requires NeverReportedLatest(m.script, n)
    ensures var r := Run(m, canRun);
      && IsKnownTerminal(r.m.epochs, n)
      && forall i :: |m.attempts| <= i < |r.m.attempts| ==> r.m.attempts[i].epNum != n
    decreases |m.script|, Above(m.epochs.Keys, m.epNum)
  {
    StepKeepsTerminal(m, canRun, n);
    StepFetchDecision(m, canRun);
    RunUnfold(m, canRun);
    match Step(m, canRun)
    case Stop(m', why) =>
    case Next(m') =>
      StepProgress(m, canRun);
      TerminalNeverRefetched(m', canRun, n);
      RunConsumesScriptInOrder(m', canRun);
      var r := Run(m, canRun);
      forall i | |m.attempts| <= i < |r.m.attempts|
        ensures r.m.attempts[i].epNum != n
      {
        if i < |m'.attempts| {
          assert r.m.attempts[i] == r.m.attempts[..|m'.attempts|][i];
        }
      }
  }

  /** The pending-write counter is below the buffer size at every loop head (lines 168-169). */
  lemma StepKeepsPendingBelowBuffer(m: Machine, canRun: bool)
    requires m.pending < BufferSize
    ensures Step(m, canRun).m.pending < BufferSize
  {
  }

  /** Counting the successes of a run in two stretches, the first of at most one fetch. */
  lemma OkCountSplit(pre: seq<Attempt>, mid: seq<Attempt>, all: seq<Attempt>)
    requires |pre| <= |mid| <= |pre| + 1 && |mid| <= |all| && all[..|mid|] == mid
    ensures OkCount(all[|pre|..]) == OkCount(mid[|pre|..]) + OkCount(all[|mid|..])
  {
    if |mid| == |pre| + 1 {
      assert all[|pre|] == mid[|pre|];
      assert all[|pre|..][1..] == all[|mid|..];
      assert mid[|pre|..][1..] == [];
    } else {
      assert mid[|pre|..] == [];
    }
  }

  /** One pass of the loop obeys the flush count of RunFlushCount. */
  lemma StepFlushCount(m: Machine, canRun: bool)
    requires m.pending < BufferSize
    ensures var s := Step(m, canRun);
      var counted := OkCount(s.m.attempts[|m.attempts|..]) - (if s.Stop? && s.why == ReachedLatest then 1 else 0);
      && counted >= 0
      && |s.m.writes| == |m.writes| + (m.pending + counted) / BufferSize
      && s.m.pending == (m.pending + counted) % BufferSize
  {
    StepFetchDecision(m, canRun);
    var s := Step(m, canRun);
    if |s.m.attempts| == |m.attempts| + 1 {
      assert s.m.attempts[|m.attempts|..] == [s.m.attempts[|m.attempts|]];
    } else {
      assert s.m.attempts[|m.attempts|..] == [];
    }
  }

  /**
   * Buffered flushing (lines 69-75, 168-169): counting every successful
   * fetch except the one that reached the latest epoch, a run writes the
   * CSV file once per BufferSize counted fetches, and the counter ends at
   * the remainder.
   */
  lemma {:induction false} RunFlushCount(m: Machine, canRun: bool)
    requires m.pending < BufferSize
    ensures var r := Run(m, canRun);
      var counted := OkCount(r.m.attempts[|m.attempts|..]) - (if r.why == ReachedLatest then 1 else 0);
      && counted >= 0
      && |r.m.writes| == |m.writes| + (m.pending + counted) / BufferSize
      && r.m.pending == (m.pending + counted) % BufferSize
    decreases |m.script|, Above(m.epochs.Keys, m.epNum)
  {
    StepFlushCount(m, canRun);
    RunUnfold(m, canRun);
    var s := Step(m, canRun);
    if s.Next? {
      var r := Run(m, canRun);
      StepProgress(m, canRun);
      RunFlushCount(s.m, canRun);
      RunConsumesScriptInOrder(s.m, canRun);
      StepFetchDecision(m, canRun);
      OkCountSplit(m.attempts, s.m.attempts, r.m.attempts);
    }
  }

  /**
   * The retry budget (lines 171-184): a pass that goes on after a failed
   * fetch used one unit of a positive budget and left the cursor where it
   * was, so the same epoch is considered again; a pass that goes on after a
   * successful fetch reset the budget to MaxRetries; a skipped epoch leaves
   * the budget alone. Leaving with RetriesExhausted means the budget was 0.
   */
  lemma StepRetryBudget(m: Machine, canRun: bool)
    ensures var s := Step(m, canRun);
      s.Next? && |s.m.attempts| == |m.attempts| ==>
        s.m.retries == m.retries && s.m.epNum == m.epNum + 1 && s.m.epochs == m.epochs
    ensures var s := Step(m, canRun);
      s.Next? && |s.m.attempts| > |m.attempts| && s.m.attempts[|m.attempts|].outcome.Ok? ==>
        s.m.retries == Some(MaxRetries) && s.m.epNum == m.epNum + 1
    ensures var s := Step(m, canRun);
      s.Next? && |s.m.attempts| > |m.attempts| && s.m.attempts[|m.attempts|].outcome.Fail? ==>
        && m.retries.Some? && m.retries.value > 0
        && s.m.retries == Some(m.retries.value - 1)
        && s.m.epNum == m.epNum
        && s.m.epochs == m.epochs && s.m.pending == m.pending && s.m.writes == m.writes
    ensures var s := Step(m, canRun);
      s.Stop? && s.why == RetriesExhausted ==>
        m.retries == Some(0) && |s.m.attempts| == |m.attempts| + 1 && s.m.attempts[|m.attempts|].outcome == Fail
  {
  }

  /**
   * After a successful fetch, an epoch whose fetch keeps failing is tried
   * three times (the first try and MaxRetries retries), and then the loop
   * is left with nothing stored or written.
   */
  lemma FailingEpochTriedThreeTimes(m: Machine, canRun: bool)
    requires canRun && m.retries == Some(MaxRetries) && !IsKnownTerminal(m.epochs, m.epNum + 1)
    requires |m.script| >= 3 && m.script[0] == Fail && m.script[1] == Fail && m.script[2] == Fail
    ensures var r := Run(m, canRun);
      var tried := Attempt(m.epNum + 1, m.delayNeeded, Fail);
      && r.why == RetriesExhausted
      && r.m.attempts == m.attempts + [tried, tried, tried]
      && r.m.script == m.script[3..]
      && r.m.epochs == m.epochs && r.m.pending == m.pending && r.m.writes == m.writes
  {
    var m1 := Step(m, canRun).m;
    assert Step(m, canRun) == Next(m1);
    RunUnfold(m, canRun);
    var m2 := Step(m1, canRun).m;
    assert Step(m1, canRun) == Next(m2);
    RunUnfold(m1, canRun);
    assert Step(m2, canRun).Stop?;
    RunUnfold(m2, canRun);
    assert m.script[1..][1..][1..] == m.script[3..];
  }

  /**
   * retriesRemaining is never declared (lines 173, 184): the loop throws
   * exactly when the budget was never assigned and the first fetch of the
   * run fails; it then throws at that first fetch.
   */
  lemma {:induction false} ThrowsIffFirstFetchFails(m: Machine, canRun: bool)
    ensures var r := Run(m, canRun);
      r.why == ThrewReferenceError <==>
        m.retries == None && |r.m.attempts| > |m.attempts| && r.m.attempts[|m.attempts|].outcome == Fail
    ensures var r := Run(m, canRun);
      r.why == ThrewReferenceError ==> |r.m.attempts| == |m.attempts| + 1
    decreases |m.script|, Above(m.epochs.Keys, m.epNum)
  {
    StepFetchDecision(m, canRun);
    RunUnfold(m, canRun);
    RunConsumesScriptInOrder(m, canRun);
    match Step(m, canRun)
    case Stop(m', why) =>
    case Next(m') =>
      StepProgress(m, canRun);
      ThrowsIffFirstFetchFails(m', canRun);
      RunConsumesScriptInOrder(m', canRun);
      var r := Run(m, canRun);
      if |m'.attempts| == |m.attempts| + 1 {
        assert r.m.attempts[|m.attempts|] == r.m.attempts[..|m'.attempts|][|m.attempts|];
      }
  }

  /**
   * delayNeeded (lines 147, 155-157, 163): each fetch is delayed exactly when
   * an earlier fetch succeeded; the flag is set by the first success and
   * never cleared.
   */
  lemma StepDelayFlag(m: Machine, canRun: bool)
    ensures var s := Step(m, canRun);
      |s.m.attempts| > |m.attempts| ==>
        && s.m.attempts[|m.attempts|].delayed == m.delayNeeded
        && s.m.delayNeeded == (m.delayNeeded || s.m.attempts[|m.attempts|].outcome.Ok?)
    ensures var s := Step(m, canRun);
      |s.m.attempts| == |m.attempts| ==> s.m.delayNeeded == m.delayNeeded
  {
  }

  /**
   * At every loop head, delayNeeded is set exactly when retriesRemaining has
   * been assigned: both are first set by a successful fetch, so a failure
   * reads the undeclared variable only before the first success.
   */
  lemma StepKeepsDelayMatchingBudget(m: Machine, canRun: bool)
    requires m.delayNeeded <==> m.retries.Some?
    ensures Step(m, canRun).Next? ==> (Step(m, canRun).m.delayNeeded <==> Step(m, canRun).m.retries.Some?)
  {
  }

  /**
   * A successful fetch (lines 161-169): the record is stored under its own
   * number; the loop stops, with nothing counted or written, iff the record
   * now stored under the cursor has no successor; otherwise the fetch is
   * counted, flushed at the threshold and the retry budget is reset.
   */
  lemma StepOnSuccess(m: Machine, canRun: bool, e: Epoch)
    requires canRun && !IsKnownTerminal(m.epochs, m.epNum + 1)
    requires m.script != [] && m.script[0] == Ok(e)
    ensures var s := Step(m, canRun);
      var stored := m.epochs[e.epochNum := e];
      && s.m.epochs == stored
      && (s.Stop? <==> IsEpochLatest(stored, m.epNum + 1))
      && (s.Stop? ==> s.why == ReachedLatest && s.m.pending == m.pending && s.m.writes == m.writes)
      && (s.Next? ==> (s.m.pending, s.m.writes) == AfterBufferWrite(stored, m.pending + 1, m.writes)
                      && s.m.retries == Some(MaxRetries))
  {
  }

  /**
   * Reaching the latest epoch (lines 164-167, 186): the loop is left without
   * counting the fetch, so the final writeEpochsCsv writes the list, which
   * now holds the fetched record, only if some earlier fetch was still
   * pending. Right after a flush, or as the first fetch of a run, the record
   * of the latest epoch is stored in memory but not written.
   */
  lemma LatestFetchWrittenOnlyIfPending(m: Machine, canRun: bool, e: Epoch)
    requires canRun && !IsKnownTerminal(m.epochs, m.epNum + 1)
    requires m.script != [] && m.script[0] == Ok(e)
    requires e.epochNum == m.epNum + 1 && !HasSuccessor(e)
    ensures var r := Run(m, canRun);
      && r.why == ReachedLatest
      && r.m.epochs == m.epochs[e.epochNum := e]
      && r.m.pending == m.pending
      && (m.pending == 0 ==> FinalWrites(r) == m.writes)
      && (m.pending != 0 ==> FinalWrites(r) == m.writes + [Snapshot(m.epochs[e.epochNum := e])])
  {
    RunUnfold(m, canRun);
  }

  /** A run only adds epochs to the list, and each under its own number. */
  lemma {:induction false} RunKeepsKeyed(m: Machine, canRun: bool)
    ensures m.epochs.Keys <= Run(m, canRun).m.epochs.Keys
    ensures Keyed(m.epochs) ==> Keyed(Run(m, canRun).m.epochs)
    decreases |m.script|, Above(m.epochs.Keys, m.epNum)
  {
    RunUnfold(m, canRun);
    StepKeepsKeyed(m, canRun);
    var s := Step(m, canRun);
    if s.Next? {
      StepProgress(m, canRun);
      RunKeepsKeyed(s.m, canRun);
    }
  }

  /** A pass writes, if at all, through bufferWriteEpochsCsv after storing a fetched record. */
  lemma StepWrites(m: Machine, canRun: bool)
    ensures var w := Step(m, canRun).m.writes;
      || w == m.writes
      || (m.script != [] && m.script[0].Ok?
          && w == AfterBufferWrite(m.epochs[m.script[0].epoch.epochNum := m.script[0].epoch], m.pending + 1, m.writes).1)
  {
  }

  /** One pass of the loop writes, if at all, a keyed list in ascending order. */
  lemma StepKeepsWritesAscending(m: Machine, canRun: bool)
    requires Keyed(m.epochs) && WritesAscending(m.writes)
    ensures WritesAscending(Step(m, canRun).m.writes)
  {
    StepWrites(m, canRun);
    if m.script != [] && m.script[0].Ok? {
      var e := m.script[0].epoch;
      WriteKeepsAscending(m.epochs[e.epochNum := e], m.pending + 1, m.writes);
    }
  }

  /**
   * Every CSV file the harvest writes, during the loop and at line 186,
   * lists its epochs in strictly ascending order of epoch number, provided
   * the list entering the loop stores each epoch under its own number.
   */
  lemma {:induction false} RunKeepsWritesAscending(m: Machine, canRun: bool)
    requires Keyed(m.epochs) && WritesAscending(m.writes)
    ensures WritesAscending(Run(m, canRun).m.writes)
    ensures WritesAscending(FinalWrites(Run(m, canRun)))
    decreases |m.script|, Above(m.epochs.Keys, m.epNum)
  {
    StepKeepsWritesAscending(m, canRun);
    RunUnfold(m, canRun);
    var s := Step(m, canRun);
    if s.Next? {
      StepProgress(m, canRun);
      RunKeepsWritesAscending(s.m, canRun);
    }
    var r := Run(m, canRun);
    RunKeepsKeyed(m, canRun);
    WriteKeepsAscending(r.m.epochs, r.m.pending, r.m.writes);
  }

  /** A run keeps the store's invariant, for indices it does not touch, and the ordered log. */
  lemma RunKeepsValid(m: Machine, canRun: bool, fbuIndex: map<Timestamp, nat>, lbuIndex: map<Timestamp, nat>)
    requires Valid(Store(m.epochs, fbuIndex, lbuIndex)) && WritesAscending(m.writes)
    ensures Valid(Store(Run(m, canRun).m.epochs, fbuIndex, lbuIndex)) && WritesAscending(Run(m, canRun).m.writes)
  {
    RunKeepsKeyed(m, canRun);
    RunKeepsWritesAscending(m, canRun);
  }

  /** A run on a cleared flag stops at once; on a set flag it never reports an interruption. */
  lemma {:induction false} InterruptedOnlyBeforeTheFirstPass(m: Machine, canRun: bool)
    ensures !canRun ==> Run(m, canRun) == Stop(m, Interrupted)
    ensures canRun ==> Run(m, canRun).why != Interrupted
    decreases |m.script|, Above(m.epochs.Keys, m.epNum)
  {
    RunUnfold(m, canRun);
    var s := Step(m, canRun);
    if s.Next? {
      StepProgress(m, canRun);
      InterruptedOnlyBeforeTheFirstPass(s.m, canRun);
    }
  }
}
