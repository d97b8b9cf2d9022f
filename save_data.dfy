/**
 * The per-world record of which region hashes have had their ores saved: a set of `Int` hashes
 * with an add, an absence test, and the replacement from and serialisation to the int array
 * stored in the world's saved data.
 */
module SaveData {
  import opened Coordinates

  /** The distinct hashes of an int array (`IntArray.toSet()`). */
  function ToSet(arr: seq<Int32>): set<Int32>
  {
    set h | h in arr
  }

  predicate Distinct(arr: seq<Int32>)
  {
    forall i, j :: 0 <= i < j < |arr| ==> arr[i] != arr[j]
  }

  /** An array without repeated hashes has as many entries as hashes. */
  lemma {:induction false} DistinctCard(arr: seq<Int32>)
    requires Distinct(arr)
    ensures |ToSet(arr)| == |arr|
  {
    if arr != [] {
      var tail := arr[1..];
      assert Distinct(tail) by {
        forall i, j | 0 <= i < j < |tail|
          ensures tail[i] != tail[j]
        {
          assert tail[i] == arr[i + 1] && tail[j] == arr[j + 1];
        }
      }
      DistinctCard(tail);
      assert arr[0] !in tail by {
        forall j | 0 <= j < |tail|
          ensures tail[j] != arr[0]
        {
          assert tail[j] == arr[j + 1];
        }
      }
      assert arr == [arr[0]] + tail;
      assert ToSet(arr) == {arr[0]} + ToSet(tail);
    }
  }

  class VirtualWorldSaveData {
    var regionsHashed: set<Int32>

    /** A fresh record holds no hash, so every region still needs its save. */
    constructor ()
      ensures regionsHashed == {}
      ensures forall hash :: HasSave(hash)
    {
      regionsHashed := {};
    }

    /** `hasSave(hash)`: true while the hash has NOT been recorded. */
    predicate HasSave(hash: Int32)
      reads this
    {
      hash !in regionsHashed
    }

    /**
     * `saveHashRegion(hash)`: records the hash. Afterwards `hasSave(hash)` is false, every other
     * hash answers as before, and recording a hash already present changes nothing.
     */
    method SaveHashRegion(hash: Int32)
      modifies this
      ensures regionsHashed == old(regionsHashed) + {hash}
      ensures !HasSave(hash)
      ensures forall k :: k != hash ==> HasSave(k) == old(HasSave(k))
      ensures old(hash in regionsHashed) ==> regionsHashed == old(regionsHashed)
    {
      regionsHashed := regionsHashed + {hash};
    }

    /**
     * The set replacement of `readFromNBT`: the set is cleared, then the stored array's hashes
     * are added, so the set holds exactly those hashes and nothing recorded before survives.
     */
    method ReadFromNBT(stored: seq<Int32>)
      modifies this
      ensures regionsHashed == ToSet(stored)
      ensures forall hash :: HasSave(hash) <==> hash !in stored
    {
      regionsHashed := {};
      regionsHashed := regionsHashed + ToSet(stored);
    }

    /**
     * The serialisation step of `writeToNBT` (`regionsHashed.toIntArray()`): every recorded hash
     * exactly once, in the set's iteration order; the set is not changed.
     */
    method WriteToNBT() returns (stored: seq<Int32>)
      ensures ToSet(stored) == regionsHashed
      ensures Distinct(stored)
      ensures |stored| == |regionsHashed|
    {
      stored := [];
      var remaining := regionsHashed;
      while remaining != {}
        invariant remaining <= regionsHashed
        invariant ToSet(stored) == regionsHashed - remaining
        invariant Distinct(stored)
        invariant |stored| + |remaining| == |regionsHashed|
        decreases |remaining|
      {
        var hash :| hash in remaining;
        assert hash !in stored;
        assert ToSet(stored + [hash]) == ToSet(stored) + {hash};
        stored := stored + [hash];
        remaining := remaining - {hash};
      }
    }
  }

  /**
   * Writing a record and reading the array back into another record gives the same set, and so
   * the same answer to `hasSave` for every hash; the written record is not changed.
   */
  method WriteThenRead(data: VirtualWorldSaveData, target: VirtualWorldSaveData) returns (stored: seq<Int32>)
    modifies target
    ensures target.regionsHashed == old(data.regionsHashed)
    ensures forall hash :: target.HasSave(hash) <==> old(data.HasSave(hash))
    ensures |stored| == |target.regionsHashed|
  {
    stored := data.WriteToNBT();
    target.ReadFromNBT(stored);
  }

  /** Reading an array, then writing it, gives back an array with the same hashes, each once. */
  method ReadThenWrite(stored: seq<Int32>, target: VirtualWorldSaveData) returns (written: seq<Int32>)
    modifies target
    ensures target.regionsHashed == ToSet(stored)
    ensures ToSet(written) == ToSet(stored) && Distinct(written)
    ensures Distinct(stored) ==> |written| == |stored|
  {
    target.ReadFromNBT(stored);
    written := target.WriteToNBT();
    if Distinct(stored) {
      DistinctCard(stored);
    }
  }
}
