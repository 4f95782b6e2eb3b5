/**
 * Row order of writeEpochsCsv. The keys are sorted as strings and copied
 * into a fresh object, but Object.values lists an object's array-index keys
 * in ascending numeric order (OrdinaryOwnPropertyKeys, section 10.1.11.1 of
 * ECMA-262), whatever order they were inserted in. So the rows come out in
 * ascending epoch-number order.
 */
module CsvOrder {
  import opened EpochStore

  predicate StrictlyAscending(s: seq<nat>)
  {
    forall i, j :: 0 <= i < j < |s| ==> s[i] < s[j]
  }

  lemma {:induction false} MinExists(s: set<nat>)
    requires s != {}
    ensures exists m :: m in s && forall x :: x in s ==> m <= x
  {
    var y :| y in s;
    if s != {y} {
      MinExists(s - {y});
      var m :| m in s - {y} && forall x :: x in s - {y} ==> m <= x;
      forall x | x in s
        ensures x == y || m <= x
      {
        if x != y {
          assert x in s - {y};
        }
      }
      if y < m {
        assert forall x :: x in s ==> y <= x;
      } else {
        assert forall x :: x in s ==> m <= x;
      }
    } else {
      assert forall x :: x in s ==> y <= x;
    }
  }

  function MinKey(s: set<nat>): (m: nat)
    requires s != {}
    ensures m in s && forall x :: x in s ==> m <= x
  {
    MinExists(s);
    var m :| m in s && forall x :: x in s ==> m <= x;
    m
  }

  /** The property order of an object whose keys are all array indices. */
  function AscendingKeys(s: set<nat>): (r: seq<nat>)
    ensures StrictlyAscending(r)
    ensures |r| == |s|
    ensures forall x :: x in r <==> x in s
    decreases |s|
  {
    if s == {} then []
    else
      var m := MinKey(s);
      var rest := AscendingKeys(s - {m});
      assert forall x :: x in rest ==> m < x;
      [m] + rest
  }

  /** Object.values of an object with array-index keys. */
  function ObjectValues(obj: map<nat, Epoch>): (rows: seq<Epoch>)
    ensures |rows| == |obj.Keys|
    ensures var keys := AscendingKeys(obj.Keys);
      |rows| == |keys| && forall i :: 0 <= i < |rows| ==> keys[i] in obj && rows[i] == obj[keys[i]]
  {
    var keys := AscendingKeys(obj.Keys);
    assert forall i :: 0 <= i < |keys| ==> keys[i] in obj;
    seq(|keys|, i requires 0 <= i < |keys| => obj[keys[i]])
  }

  /** The reduce at lines 57-60: copy src's entries into {} in the given key order. */
  function Reinsert(keys: seq<nat>, src: map<nat, Epoch>): (acc: map<nat, Epoch>)
    requires forall i :: 0 <= i < |keys| ==> keys[i] in src
    ensures forall k :: k in acc <==> k in keys
    ensures forall k :: k in acc ==> acc[k] == src[k]
  {
    if keys == [] then map[]
    else
      var front := keys[..|keys| - 1];
      assert forall k :: k in front ==> k in keys;
      Reinsert(front, src)[keys[|keys| - 1] := src[keys[|keys| - 1]]]
  }

  /**
   * Copying every key of the epoch list into a fresh object gives back the
   * same object in any key order, so the string sort at line 56 cannot
   * change what Object.values returns.
   */
  lemma ReinsertAnyOrder(keys: seq<nat>, src: map<nat, Epoch>)
    requires forall k :: k in keys <==> k in src
    ensures Reinsert(keys, src) == src
    ensures ObjectValues(Reinsert(keys, src)) == ObjectValues(src)
  {
  }

  /** The rows that writeEpochsCsv hands to the CSV encoder. */
  function Snapshot(epochs: map<nat, Epoch>): (rows: seq<Epoch>)
    ensures |rows| == |epochs.Keys|
    ensures forall i :: 0 <= i < |rows| ==> rows[i] in epochs.Values
  {
    ObjectValues(epochs)
  }

  /**
   * The snapshot lists every stored epoch exactly once, in strictly
   * ascending numeric order of epoch number.
   */
  lemma SnapshotAscending(epochs: map<nat, Epoch>)
    requires Keyed(epochs)
    ensures |Snapshot(epochs)| == |epochs.Keys|
    ensures forall i, j :: 0 <= i < j < |Snapshot(epochs)| ==> Snapshot(epochs)[i].epochNum < Snapshot(epochs)[j].epochNum
    ensures forall i :: 0 <= i < |Snapshot(epochs)| ==> Snapshot(epochs)[i].epochNum in epochs && epochs[Snapshot(epochs)[i].epochNum] == Snapshot(epochs)[i]
    ensures forall k :: k in epochs ==> epochs[k] in Snapshot(epochs)
  {
    var keys := AscendingKeys(epochs.Keys);
    var rows := Snapshot(epochs);
    forall k | k in epochs
      ensures epochs[k] in rows
    {
      assert k in keys;
      var i :| 0 <= i < |keys| && keys[i] == k;
      assert rows[i] == epochs[k];
    }
  }

  /** The first element of an ascending sequence is its least. */
  lemma FirstIsLeast(s: seq<nat>, x: nat)
    requires StrictlyAscending(s)
    requires x in s
    ensures s[0] <= x
  {
    var j :| 0 <= j < |s| && s[j] == x;
    assert j == 0 || s[0] < s[j];
  }

  /** Two strictly ascending sequences with the same elements are equal. */
  lemma {:induction false} AscendingUnique(a: seq<nat>, b: seq<nat>)
    requires StrictlyAscending(a) && StrictlyAscending(b)
    requires forall x :: x in a <==> x in b
    ensures a == b
  {
    if a != [] {
      assert a[0] in b;
    }
    if b != [] {
      assert b[0] in a;
    }
    if a != [] {
      FirstIsLeast(b, a[0]);
      FirstIsLeast(a, b[0]);
      forall x
        ensures x in a[1..] <==> x in b[1..]
      {
        if x in a[1..] {
          var i :| 0 <= i < |a| - 1 && a[1..][i] == x;
          assert a[i + 1] == x && a[0] < x;
          assert x in a && x in b;
          var j :| 0 <= j < |b| && b[j] == x;
          assert j != 0;
          assert b[1..][j - 1] == x;
        }
        if x in b[1..] {
          var i :| 0 <= i < |b| - 1 && b[1..][i] == x;
          assert b[i + 1] == x && b[0] < x;
          assert x in b && x in a;
          var j :| 0 <= j < |a| && a[j] == x;
          assert j != 0;
          assert a[1..][j - 1] == x;
        }
      }
      AscendingUnique(a[1..], b[1..]);
    }
  }

  /** Epochs 7, 42 and 3 are written as 3, 7, 42, not in string order 3, 42, 7. */
  lemma NumericNotLexicographic()
    ensures AscendingKeys({7, 42, 3}) == [3, 7, 42]
  {
    var r := AscendingKeys({7, 42, 3});
    AscendingUnique(r, [3, 7, 42]);
  }

  /** The epoch numbers of a list of rows. */
  function EpochNums(rows: seq<Epoch>): (ns: seq<nat>)
    ensures |ns| == |rows|
    ensures forall i :: 0 <= i < |rows| ==> ns[i] == rows[i].epochNum
  {
    seq(|rows|, i requires 0 <= i < |rows| => rows[i].epochNum)
  }

  /** A listing of exactly the stored epochs lists each under its own number, and its numbers are the keys. */
  lemma ListingNums(epochs: map<nat, Epoch>, rows: seq<Epoch>)
    requires Keyed(epochs)
    requires forall e :: e in rows <==> e in epochs.Values
    ensures forall i :: 0 <= i < |rows| ==> rows[i].epochNum in epochs && epochs[rows[i].epochNum] == rows[i]
    ensures forall x :: x in EpochNums(rows) <==> x in epochs
  {
    var a := EpochNums(rows);
    forall i | 0 <= i < |rows|
      ensures rows[i].epochNum in epochs && epochs[rows[i].epochNum] == rows[i]
    {
      assert rows[i] in epochs.Values;
      var k :| k in epochs && epochs[k] == rows[i];
    }
    forall x | x in epochs
      ensures x in a
    {
      assert epochs[x] in epochs.Values;
      var i :| 0 <= i < |rows| && rows[i] == epochs[x];
      assert a[i] == x;
    }
  }

  /**
   * The snapshot is the only listing of the stored epochs that is strictly
   * ascending by epoch number: whatever the key order inside the object,
   * the written file is determined by the epoch list alone.
   */
  lemma SnapshotIsTheAscendingListing(epochs: map<nat, Epoch>, rows: seq<Epoch>)
    requires Keyed(epochs)
    requires forall i, j :: 0 <= i < j < |rows| ==> rows[i].epochNum < rows[j].epochNum
    requires forall e :: e in rows <==> e in epochs.Values
    ensures rows == Snapshot(epochs)
  {
    SnapshotAscending(epochs);
    var snap := Snapshot(epochs);
    assert forall e :: e in snap <==> e in epochs.Values by {
      forall e | e in epochs.Values
        ensures e in snap
      {
        var k :| k in epochs && epochs[k] == e;
      }
    }
    ListingNums(epochs, rows);
    ListingNums(epochs, snap);
    AscendingUnique(EpochNums(rows), EpochNums(snap));
    assert |rows| == |snap| by {
      assert |EpochNums(rows)| == |EpochNums(snap)|;
    }
    forall i | 0 <= i < |rows|
      ensures rows[i] == snap[i]
    {
      assert EpochNums(rows)[i] == EpochNums(snap)[i];
    }
  }
}
