/**
 * The buffered flush policy of scrape-solscan.js. A disk write is modelled
 * as appending the written rows to a log of writes.
 */
module FlushPolicy {
  import opened EpochStore
  import opened CsvOrder

  /** Save the CSV file every nth epoch downloaded (line 9). */
  const BufferSize: nat := 5

  /** writeEpochsCsv: nothing is written while no write is pending; otherwise the whole list, in snapshot order. */
  function AfterWrite(epochs: map<nat, Epoch>, pending: nat, writes: seq<seq<Epoch>>): (w: seq<seq<Epoch>>)
    ensures pending == 0 <==> w == writes
    ensures pending != 0 ==> |w| == |writes| + 1 && w[..|writes|] == writes && w[|writes|] == Snapshot(epochs)
  {
    if pending == 0 then writes else writes + [Snapshot(epochs)]
  }

  /**
   * bufferWriteEpochsCsv: at the threshold, write and reset the counter;
   * below it, change nothing.
   */
  function AfterBufferWrite(epochs: map<nat, Epoch>, pending: nat, writes: seq<seq<Epoch>>): (r: (nat, seq<seq<Epoch>>))
    ensures pending >= BufferSize ==> r.0 == 0 && r.1 == writes + [Snapshot(epochs)]
    ensures pending < BufferSize ==> r.0 == pending && r.1 == writes
  {
    if pending < BufferSize then (pending, writes)
    else (0, AfterWrite(epochs, pending, writes))
  }

  /** Every file written so far lists its epochs in strictly ascending order of epoch number. */
  ghost predicate WritesAscending(writes: seq<seq<Epoch>>)
  {
    forall w, i, j :: 0 <= w < |writes| && 0 <= i < j < |writes[w]| ==> writes[w][i].epochNum < writes[w][j].epochNum
  }

  lemma AppendAscending(writes: seq<seq<Epoch>>, file: seq<Epoch>)
    requires WritesAscending(writes)
    requires forall i, j :: 0 <= i < j < |file| ==> file[i].epochNum < file[j].epochNum
    ensures WritesAscending(writes + [file])
  {
    var all: seq<seq<Epoch>> := writes + [file];
    forall w, i, j | 0 <= w < |all| && 0 <= i < j < |all[w]|
      ensures all[w][i].epochNum < all[w][j].epochNum
    {
      if w < |writes| {
        assert all[w] == writes[w];
      } else {
        assert all[w] == file;
      }
    }
  }

  /** A write of a keyed list keeps every written file in ascending order. */
  lemma WriteKeepsAscending(epochs: map<nat, Epoch>, pending: nat, writes: seq<seq<Epoch>>)
    requires Keyed(epochs) && WritesAscending(writes)
    ensures WritesAscending(AfterWrite(epochs, pending, writes))
    ensures WritesAscending(AfterBufferWrite(epochs, pending, writes).1)
  {
    if pending != 0 {
      SnapshotAscending(epochs);
      AppendAscending(writes, Snapshot(epochs));
    }
  }
}
