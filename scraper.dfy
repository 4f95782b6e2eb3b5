/**
 * The global state of scrape-solscan.js and the functions that update it
 * in place. Each method is proved against the value-level definitions of
 * EpochStore, FlushPolicy and Harvest.
 */
module Scraper {
  import opened Wrappers
  import opened EpochStore
  import opened CsvOrder
  import opened FlushPolicy
  import opened Harvest
  import opened HarvestLemmas

  class Scraper {
    var epochList: map<nat, Epoch>
    var epochFbuTimestampIndex: map<Timestamp, nat>
    var epochLbuTimestampIndex: map<Timestamp, nat>
    var pendingWrites: nat
    var programCanRun: bool
    /** Assigned only at line 184; reading it before that throws. */
    var retriesRemaining: Option<nat>
    /** Every CSV file content written so far, oldest first. */
    var csvWrites: seq<seq<Epoch>>

    function StoreView(): Store
      reads this
    {
      Store(epochList, epochFbuTimestampIndex, epochLbuTimestampIndex)
    }

    /** The loop state of testRange, given its local variables. */
    ghost function LoopState(epNum: nat, delayNeeded: bool, rest: seq<FetchOutcome>, fetched: seq<Attempt>): Machine
      reads this
    {
      Machine(epochList, pendingWrites, csvWrites, epNum, delayNeeded, retriesRemaining, rest, fetched)
    }

    ghost predicate Valid()
      reads this
    {
      EpochStore.Valid(StoreView()) && WritesAscending(csvWrites)
    }

    /** The script's globals at start-up (lines 13-17). */
    constructor ()
      ensures Valid()
      ensures epochList == map[] && epochFbuTimestampIndex == map[] && epochLbuTimestampIndex == map[]
      ensures pendingWrites == 0 && programCanRun && retriesRemaining == None && csvWrites == []
    {
      epochList := map[];
      epochFbuTimestampIndex := map[];
      epochLbuTimestampIndex := map[];
      pendingWrites := 0;
      programCanRun := true;
      retriesRemaining := None;
      csvWrites := [];
    }

    /** addEpochToList (lines 44-48). */
    method AddEpochToList(epoch: Epoch)
      modifies this`epochList, this`epochFbuTimestampIndex, this`epochLbuTimestampIndex
      ensures StoreView() == AddEpoch(old(StoreView()), epoch)
      ensures old(Valid()) ==> Valid()
    {
      epochList := epochList[epoch.epochNum := epoch];
      epochFbuTimestampIndex := epochFbuTimestampIndex[epoch.firstBlockUnixTimestamp := epoch.epochNum];
      epochLbuTimestampIndex := epochLbuTimestampIndex[epoch.lastBlockUnixTimestamp := epoch.epochNum];
    }

    /** writeEpochsCsv (lines 50-67). */
    method WriteEpochsCsv()
      modifies this`csvWrites
      ensures csvWrites == AfterWrite(epochList, pendingWrites, old(csvWrites))
      ensures old(Valid()) ==> Valid()
    {
      if old(Valid()) {
        WriteKeepsAscending(epochList, pendingWrites, csvWrites);
      }
      if pendingWrites == 0 {
        return;
      }
      csvWrites := csvWrites + [Snapshot(epochList)];
    }

    /** bufferWriteEpochsCsv (lines 69-75). */
    method BufferWriteEpochsCsv()
      modifies this`csvWrites, this`pendingWrites
      ensures (pendingWrites, csvWrites) == AfterBufferWrite(epochList, old(pendingWrites), old(csvWrites))
      ensures old(Valid()) ==> Valid()
    {
      if pendingWrites < BufferSize {
        return;
      }
      WriteEpochsCsv();
      pendingWrites := 0;
    }

    /**
     * readEpochsCsv (lines 77-87): `file` is None when the CSV file does not
     * exist, and otherwise the rows it decodes to.
     */
    method ReadEpochsCsv(file: Option<seq<Epoch>>)
      modifies this`epochList, this`epochFbuTimestampIndex, this`epochLbuTimestampIndex
      ensures StoreView() == if file.None? then old(StoreView()) else Load(old(StoreView()), file.value)
      ensures old(Valid()) ==> Valid()
    {
      if file.None? {
        return;
      }
      var rows := file.value;
      for i := 0 to |rows|
        invariant StoreView() == Load(old(StoreView()), rows[..i])
      {
        assert rows[..i + 1][..i] == rows[..i];
        AddEpochToList(rows[i]);
      }
      assert rows[..|rows|] == rows;
    }

    /** The SIGINT handler (lines 19-23). */
    method OnSigint()
      modifies this`programCanRun, this`csvWrites
      ensures !programCanRun
      ensures csvWrites == AfterWrite(epochList, pendingWrites, old(csvWrites))
      ensures old(Valid()) ==> Valid()
    {
      programCanRun := false;
      WriteEpochsCsv();
    }

    /**
     * testRange (lines 145-187) with scrapeEpochPage replaced by `script`.
     * Returns why the loop was left and the calls made to scrapeEpochPage.
     */
    method TestRange(file: Option<seq<Epoch>>, script: seq<FetchOutcome>) returns (why: Exit, fetched: seq<Attempt>)
      modifies this`epochList, this`epochFbuTimestampIndex, this`epochLbuTimestampIndex
      modifies this`pendingWrites, this`retriesRemaining, this`csvWrites
      ensures var loaded := if file.None? then old(StoreView()) else Load(old(StoreView()), file.value);
        var r := Run(Start(loaded.epochs, old(pendingWrites), old(csvWrites), old(retriesRemaining), script), programCanRun);
        && why == r.why
        && fetched == r.m.attempts
        && epochList == r.m.epochs
        && pendingWrites == r.m.pending
        && retriesRemaining == r.m.retries
        && csvWrites == FinalWrites(r)
        && epochFbuTimestampIndex == loaded.fbuIndex
        && epochLbuTimestampIndex == loaded.lbuIndex
      ensures old(Valid()) ==> Valid()
    {
      ReadEpochsCsv(file);
      why, fetched := HarvestLoop(script);
      if why != ThrewReferenceError && why != ScriptExhausted {
        WriteEpochsCsv();
      }
    }

    /**
     * The rest of a pass after a successful fetch of an epoch that is not the
     * latest (lines 168-169, 184): count it, flush at the threshold, reset the budget.
     */
    method CountFetch()
      modifies this`pendingWrites, this`csvWrites, this`retriesRemaining
      ensures (pendingWrites, csvWrites) == AfterBufferWrite(epochList, old(pendingWrites) + 1, old(csvWrites))
      ensures retriesRemaining == Some(MaxRetries)
    {
      pendingWrites := pendingWrites + 1;
      BufferWriteEpochsCsv();
      retriesRemaining := Some(MaxRetries);
    }

    /**
     * One pass of the while loop of testRange (lines 150-184), from the
     * local variables before it to those after it. `goOn` is false where
     * the pass leaves the loop, and `why` then says why; while `goOn` is
     * true, `why` carries no information and is `Interrupted`, the loop's
     * exit should its guard fail next.
     */
    method Pass(epNum: nat, delayNeeded: bool, rest: seq<FetchOutcome>, fetched: seq<Attempt>)
      returns (goOn: bool, why: Exit, epNum': nat, delayNeeded': bool, rest': seq<FetchOutcome>, fetched': seq<Attempt>)
      requires programCanRun
      modifies this`epochList, this`pendingWrites, this`retriesRemaining, this`csvWrites
      ensures var s := Step(old(LoopState(epNum, delayNeeded, rest, fetched)), programCanRun);
        && (goOn <==> s.Next?)
        && s.m == LoopState(epNum', delayNeeded', rest', fetched')
        && (goOn ==> why == Interrupted)
        && (s.Stop? ==> why == s.why)
    {
      epNum', delayNeeded', rest', fetched' := epNum + 1, delayNeeded, rest, fetched;
      goOn, why := true, Interrupted;
      if epNum' in epochList && !IsEpochLatest(epochList, epNum') {
        return;
      }
      // The random delay of lines 155-157 is recorded in the attempt.
      if rest == [] {
        goOn, why := false, ScriptExhausted;
        return;
      }
      var outcome := rest[0];
      rest' := rest[1..];
      fetched' := fetched + [Attempt(epNum', delayNeeded, outcome)];
      match outcome {
        case Ok(epoch) =>
          epochList := epochList[epoch.epochNum := epoch];
          delayNeeded' := true;
          if IsEpochLatest(epochList, epNum') {
            goOn, why := false, ReachedLatest;
            return;
          }
          CountFetch();
        case Fail =>
          if retriesRemaining.None? {
            goOn, why := false, ThrewReferenceError;
          } else if retriesRemaining.value > 0 {
            retriesRemaining := Some(retriesRemaining.value - 1);
            epNum' := epNum' - 1; // cancels the increment at the loop head
          } else {
            goOn, why := false, RetriesExhausted;
          }
      }
    }

    /** The while loop of testRange (lines 147-185). */
    method HarvestLoop(script: seq<FetchOutcome>) returns (why: Exit, fetched: seq<Attempt>)
      modifies this`epochList, this`pendingWrites, this`retriesRemaining, this`csvWrites
      ensures var r := Run(Start(old(epochList), old(pendingWrites), old(csvWrites), old(retriesRemaining), script), programCanRun);
        && why == r.why
        && fetched == r.m.attempts
        && epochList == r.m.epochs
        && pendingWrites == r.m.pending
        && retriesRemaining == r.m.retries
        && csvWrites == r.m.writes
      ensures old(Valid()) ==> Valid()
    {
      ghost var valid0 := Valid();
      var delayNeeded := false;
      var epNum: nat := StartEpochNum - 1;
      var rest := script;
      ghost var m0 := Start(epochList, pendingWrites, csvWrites, retriesRemaining, script);
      fetched := [];
      why := Interrupted;
      while programCanRun
        invariant Run(LoopState(epNum, delayNeeded, rest, fetched), programCanRun) == Run(m0, programCanRun)
        invariant why == Interrupted
        decreases |rest|, Above(epochList.Keys, epNum)
      {
        ghost var before := LoopState(epNum, delayNeeded, rest, fetched);
        StepProgress(before, programCanRun);
        RunUnfold(before, programCanRun);
        var goOn;
        goOn, why, epNum, delayNeeded, rest, fetched := Pass(epNum, delayNeeded, rest, fetched);
        if !goOn {
          break;
        }
      }
      RunUnfold(LoopState(epNum, delayNeeded, rest, fetched), programCanRun);
      assert Run(m0, programCanRun) == Stop(LoopState(epNum, delayNeeded, rest, fetched), why);
      if valid0 {
        RunKeepsValid(m0, programCanRun, epochFbuTimestampIndex, epochLbuTimestampIndex);
      }
    }
  }
}
