/**
 * The harvest loop of testRange (scrape-solscan.js:145-187) as a state
 * machine. One Step is one pass of the while loop, from the
 * programCanRun test at its head to the following break or continue; Run
 * repeats Step until the loop is left. scrapeEpochPage is replaced by a
 * script of outcomes, one consumed per fetch attempt.
 */
module Harvest {
  import opened Wrappers
  import opened EpochStore
  import opened CsvOrder
  import opened FlushPolicy

  /** Maximum number of retries per epoch (line 7). */
  const MaxRetries: nat := 2
  /** The first epoch the loop considers (line 10). */
  const StartEpochNum: nat := 95

  /** What one call of scrapeEpochPage does: return a record, or throw. */
  datatype FetchOutcome = Ok(epoch: Epoch) | Fail

  /** One call of scrapeEpochPage: the epoch asked for, whether a random delay preceded it, and its outcome. */
  datatype Attempt = Attempt(epNum: nat, delayed: bool, outcome: FetchOutcome)

  /** Why the loop was left. */
  datatype Exit =
    | ReachedLatest        // line 166: the record stored under the cursor (normally the scraped one) has no successor
    | RetriesExhausted     // line 181: a fetch failed with no retry left
    | Interrupted          // line 149: programCanRun is false at the loop head
    | ThrewReferenceError  // line 173: a fetch failed before retriesRemaining was ever assigned
    | ScriptExhausted      // the scripted fetch outcomes ran out (the end of the modelled run)

  /**
   * Everything the loop reads or writes: the epoch list, the pending-write
   * counter and the log of CSV writes (globals), epNum and delayNeeded
   * (locals), retriesRemaining (an undeclared global, None until first
   * assigned), the fetch outcomes still to come and the fetches made so far.
   */
  datatype Machine = Machine(
    epochs: map<nat, Epoch>,
    pending: nat,
    writes: seq<seq<Epoch>>,
    epNum: nat,
    delayNeeded: bool,
    retries: Option<nat>,
    script: seq<FetchOutcome>,
    attempts: seq<Attempt>)

  datatype StepResult = Next(m: Machine) | Stop(m: Machine, why: Exit)

  /** One pass of the loop body. */
  function Step(m: Machine, canRun: bool): (r: StepResult)
    ensures r.Next? ==> canRun
    ensures r.Stop? && r.why == Interrupted <==> !canRun
  {
    if !canRun then Stop(m, Interrupted)
    else
      var n := m.epNum + 1;
      if IsKnownTerminal(m.epochs, n) then Next(m.(epNum := n))
      else if m.script == [] then Stop(m.(epNum := n), ScriptExhausted)
      else
        var fetched := m.(epNum := n, script := m.script[1..],
                          attempts := m.attempts + [Attempt(n, m.delayNeeded, m.script[0])]);
        match m.script[0]
        case Ok(e) =>
          // line 162 stores the record under its own number, bypassing addEpochToList
          var stored := fetched.(epochs := fetched.epochs[e.epochNum := e], delayNeeded := true);
          if IsEpochLatest(stored.epochs, n) then Stop(stored, ReachedLatest)
          else
            var flushed := AfterBufferWrite(stored.epochs, stored.pending + 1, stored.writes);
            Next(stored.(pending := flushed.0, writes := flushed.1, retries := Some(MaxRetries)))
        case Fail =>
          match m.retries
          case None => Stop(fetched, ThrewReferenceError)
          case Some(k) =>
            if k > 0 then Next(fetched.(retries := Some(k - 1), epNum := n - 1))
            else Stop(fetched, RetriesExhausted)
  }

  /** A pass only adds to the list, storing a fetched record under its own number. */
  lemma StepKeepsKeyed(m: Machine, canRun: bool)
    ensures m.epochs.Keys <= Step(m, canRun).m.epochs.Keys
    ensures Keyed(m.epochs) ==> Keyed(Step(m, canRun).m.epochs)
  {
  }

  /** The number of stored epochs beyond the cursor. */
  function Above(keys: set<nat>, x: nat): nat
  {
    |set k | k in keys && k > x|
  }

  /** Moving the cursor one epoch on passes one stored epoch, if the new position holds one. */
  lemma AboveStep(keys: set<nat>, x: nat)
    ensures Above(keys, x) == Above(keys, x + 1) + (if x + 1 in keys then 1 else 0)
  {
    var before := set k | k in keys && k > x;
    var after := set k | k in keys && k > x + 1;
    if x + 1 in keys {
      assert before == after + {x + 1};
    } else {
      assert before == after;
    }
  }

  /** Every pass that goes on either consumes a fetch outcome or passes a stored epoch. */
  lemma StepProgress(m: Machine, canRun: bool)
    ensures var m' := Step(m, canRun).m;
      Step(m, canRun).Next? ==>
      || |m'.script| < |m.script|
      || (|m'.script| == |m.script| && Above(m'.epochs.Keys, m'.epNum) < Above(m.epochs.Keys, m.epNum))
  {
    if IsKnownTerminal(m.epochs, m.epNum + 1) {
      AboveStep(m.epochs.Keys, m.epNum);
    }
  }

  /** The while loop of testRange, up to the statement after it. */
  function Run(m: Machine, canRun: bool): (r: StepResult)
    ensures r.Stop?
    ensures |m.attempts| <= |r.m.attempts|
    decreases |m.script|, Above(m.epochs.Keys, m.epNum)
  {
    match Step(m, canRun)
    case Stop(m', why) => Stop(m', why)
    case Next(m') =>
      StepProgress(m, canRun);
      Run(m', canRun)
  }

  /** Run takes one Step and carries on from where it leads. */
  lemma RunUnfold(m: Machine, canRun: bool)
    ensures Step(m, canRun).Stop? ==> Run(m, canRun) == Step(m, canRun)
    ensures Step(m, canRun).Next? ==> Run(m, canRun) == Run(Step(m, canRun).m, canRun)
  {
  }

  /** The state testRange enters its loop with, after readEpochsCsv. */
  function Start(epochs: map<nat, Epoch>, pending: nat, writes: seq<seq<Epoch>>,
                 retries: Option<nat>, script: seq<FetchOutcome>): (m: Machine)
    ensures m.epNum + 1 == StartEpochNum && !m.delayNeeded && m.attempts == []
  {
    Machine(epochs, pending, writes, StartEpochNum - 1, false, retries, script, [])
  }

  /**
   * The writes after line 186: writeEpochsCsv runs unless the loop threw,
   * and does nothing while no write is pending.
   */
  function FinalWrites(r: StepResult): (w: seq<seq<Epoch>>)
    requires r.Stop?
    ensures r.why == ThrewReferenceError || r.why == ScriptExhausted || r.m.pending == 0 ==> w == r.m.writes
    ensures r.why != ThrewReferenceError && r.why != ScriptExhausted && r.m.pending != 0 ==>
      w == r.m.writes + [Snapshot(r.m.epochs)]
  {
    if r.why == ThrewReferenceError || r.why == ScriptExhausted then r.m.writes
    else AfterWrite(r.m.epochs, r.m.pending, r.m.writes)
  }
}
