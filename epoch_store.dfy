/**
 * The epoch store of scrape-solscan.js: the epoch list keyed by epoch number
 * and the two indices from a block unix timestamp to an epoch number.
 */
module EpochStore {
  import opened Wrappers

  /** A unix timestamp used as an object key; its value is never inspected. */
  type Timestamp = string

  /**
   * One row of the epochs table. `nextEpochNum` is the text of the
   * "next epoch" cell: absent when the column is missing, "" when the
   * epoch has no successor yet. The remaining columns are carried opaquely.
   */
  datatype Epoch = Epoch(
    epochNum: nat,
    nextEpochNum: Option<string>,
    firstBlockUnixTimestamp: Timestamp,
    lastBlockUnixTimestamp: Timestamp,
    details: map<string, string>)

  /** The three global maps: epochList, epochFBUTimestampIndex, epochLBUTimestampIndex. */
  datatype Store = Store(
    epochs: map<nat, Epoch>,
    fbuIndex: map<Timestamp, nat>,
    lbuIndex: map<Timestamp, nat>)

  /** The epoch reports a successor: its next-epoch cell is present and not empty. */
  predicate HasSuccessor(e: Epoch)
  {
    e.nextEpochNum.Some? && e.nextEpochNum.value != ""
  }

  /** isEpochLatest: the epoch is stored and has no successor yet. */
  function IsEpochLatest(epochs: map<nat, Epoch>, n: nat): (r: bool)
    ensures n !in epochs ==> !r
    ensures n in epochs && (epochs[n].nextEpochNum == None || epochs[n].nextEpochNum == Some("")) ==> r
    ensures n in epochs && HasSuccessor(epochs[n]) ==> !r
  {
    if n !in epochs then false
    else
      match epochs[n].nextEpochNum
      case None => true
      case Some(text) => text == ""
  }

  /** The skip test of the harvest loop: the epoch is known and is not the latest one. */
  predicate IsKnownTerminal(epochs: map<nat, Epoch>, n: nat): (r: bool)
    ensures r <==> n in epochs && HasSuccessor(epochs[n])
  {
    n in epochs && !IsEpochLatest(epochs, n)
  }

  /** Every stored epoch sits under its own number. */
  ghost predicate Keyed(epochs: map<nat, Epoch>)
  {
    forall k :: k in epochs ==> epochs[k].epochNum == k
  }

  /**
   * Every stored epoch sits under its own number, and every index entry
   * names a stored epoch.
   */
  ghost predicate Valid(s: Store)
  {
    && Keyed(s.epochs)
    && (forall t :: t in s.fbuIndex ==> s.fbuIndex[t] in s.epochs)
    && (forall t :: t in s.lbuIndex ==> s.lbuIndex[t] in s.epochs)
  }

  /**
   * addEpochToList: store the epoch under its number and point both of its
   * timestamps at that number, overwriting whatever was there.
   */
  function AddEpoch(s: Store, e: Epoch): (r: Store)
    ensures r.epochs.Keys == s.epochs.Keys + {e.epochNum}
    ensures r.epochs[e.epochNum] == e
    ensures forall k :: k in s.epochs && k != e.epochNum ==> r.epochs[k] == s.epochs[k]
    ensures r.fbuIndex.Keys == s.fbuIndex.Keys + {e.firstBlockUnixTimestamp}
    ensures r.fbuIndex[e.firstBlockUnixTimestamp] == e.epochNum
    ensures forall t :: t in s.fbuIndex && t != e.firstBlockUnixTimestamp ==> r.fbuIndex[t] == s.fbuIndex[t]
    ensures r.lbuIndex.Keys == s.lbuIndex.Keys + {e.lastBlockUnixTimestamp}
    ensures r.lbuIndex[e.lastBlockUnixTimestamp] == e.epochNum
    ensures forall t :: t in s.lbuIndex && t != e.lastBlockUnixTimestamp ==> r.lbuIndex[t] == s.lbuIndex[t]
    ensures Valid(s) ==> Valid(r)
  {
    Store(
      s.epochs[e.epochNum := e],
      s.fbuIndex[e.firstBlockUnixTimestamp := e.epochNum],
      s.lbuIndex[e.lastBlockUnixTimestamp := e.epochNum])
  }

  /** The row fold of readEpochsCsv: AddEpoch applied to the rows in file order. */
  function Load(s: Store, rows: seq<Epoch>): (r: Store)
    ensures forall k :: k in r.epochs <==> k in s.epochs || exists i :: 0 <= i < |rows| && rows[i].epochNum == k
    ensures Valid(s) ==> Valid(r)
  {
    if rows == [] then s
    else
      var r := AddEpoch(Load(s, rows[..|rows| - 1]), rows[|rows| - 1]);
      assert forall i :: 0 <= i < |rows| - 1 ==> rows[..|rows| - 1][i] == rows[i];
      r
  }

  /** When several rows carry the same epoch number, the last of them is stored. */
  lemma {:induction false} LoadLastRowWins(s: Store, rows: seq<Epoch>, i: nat)
    requires i < |rows|
    requires forall j :: i < j < |rows| ==> rows[j].epochNum != rows[i].epochNum
    ensures rows[i].epochNum in Load(s, rows).epochs
    ensures Load(s, rows).epochs[rows[i].epochNum] == rows[i]
  {
    if i < |rows| - 1 {
      var front := rows[..|rows| - 1];
      LoadLastRowWins(s, front, i);
    }
  }

  /** An epoch number that no row carries keeps its stored epoch, or stays absent. */
  lemma {:induction false} LoadKeepsOtherEpochs(s: Store, rows: seq<Epoch>, k: nat)
    requires forall j :: 0 <= j < |rows| ==> rows[j].epochNum != k
    ensures k in Load(s, rows).epochs <==> k in s.epochs
    ensures k in s.epochs ==> Load(s, rows).epochs[k] == s.epochs[k]
  {
    if rows != [] {
      LoadKeepsOtherEpochs(s, rows[..|rows| - 1], k);
    }
  }

  /** A timestamp that no row carries keeps its entry in the index it is missing from, or stays absent. */
  lemma {:induction false} LoadKeepsOtherTimestamps(s: Store, rows: seq<Epoch>, t: Timestamp)
    ensures (forall j :: 0 <= j < |rows| ==> rows[j].firstBlockUnixTimestamp != t) ==>
      (t in Load(s, rows).fbuIndex <==> t in s.fbuIndex) && (t in s.fbuIndex ==> Load(s, rows).fbuIndex[t] == s.fbuIndex[t])
    ensures (forall j :: 0 <= j < |rows| ==> rows[j].lastBlockUnixTimestamp != t) ==>
      (t in Load(s, rows).lbuIndex <==> t in s.lbuIndex) && (t in s.lbuIndex ==> Load(s, rows).lbuIndex[t] == s.lbuIndex[t])
  {
    if rows != [] {
      LoadKeepsOtherTimestamps(s, rows[..|rows| - 1], t);
    }
  }

  /** When several rows carry the same first-block timestamp, the last of them is indexed. */
  lemma {:induction false} LoadFirstTimestampLastRowWins(s: Store, rows: seq<Epoch>, i: nat)
    requires i < |rows|
    requires forall j :: i < j < |rows| ==> rows[j].firstBlockUnixTimestamp != rows[i].firstBlockUnixTimestamp
    ensures rows[i].firstBlockUnixTimestamp in Load(s, rows).fbuIndex
    ensures Load(s, rows).fbuIndex[rows[i].firstBlockUnixTimestamp] == rows[i].epochNum
  {
    if i < |rows| - 1 {
      LoadFirstTimestampLastRowWins(s, rows[..|rows| - 1], i);
    }
  }

  /** When several rows carry the same last-block timestamp, the last of them is indexed. */
  lemma {:induction false} LoadLastTimestampLastRowWins(s: Store, rows: seq<Epoch>, i: nat)
    requires i < |rows|
    requires forall j :: i < j < |rows| ==> rows[j].lastBlockUnixTimestamp != rows[i].lastBlockUnixTimestamp
    ensures rows[i].lastBlockUnixTimestamp in Load(s, rows).lbuIndex
    ensures Load(s, rows).lbuIndex[rows[i].lastBlockUnixTimestamp] == rows[i].epochNum
  {
    if i < |rows| - 1 {
      LoadLastTimestampLastRowWins(s, rows[..|rows| - 1], i);
    }
  }
}
