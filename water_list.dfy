/**
 * The water module's list of entries: appended at the end, removed by
 * position (an index out of range is ignored), read, and cleared.
 */
module WaterList {

  /** The list without its element at position i. */
  function RemoveAt<T>(s: seq<T>, i: nat): (r: seq<T>)
    requires i < |s|
    ensures |r| == |s| - 1
    ensures forall k :: 0 <= k < i ==> r[k] == s[k]
    ensures forall k :: i <= k < |r| ==> r[k] == s[k + 1]
  {
    s[..i] + s[i + 1..]
  }

  /** Removing an entry takes exactly one copy of it out of the list and
      leaves every other entry in. */
  lemma RemoveAtTakesOneCopy<T>(s: seq<T>, i: nat)
    requires i < |s|
    ensures multiset(RemoveAt(s, i)) + multiset{s[i]} == multiset(s)
  {
    assert s == s[..i] + [s[i]] + s[i + 1..];
    calc {
      multiset(s);
      multiset(s[..i]) + multiset([s[i]]) + multiset(s[i + 1..]);
      multiset(s[..i] + s[i + 1..]) + multiset{s[i]};
    }
  }

  /** The entries that stay keep their relative order: any two of them
      appear in the same order after the removal as before. */
  lemma RemoveAtKeepsOrder<T>(s: seq<T>, i: nat, a: nat, b: nat)
    requires i < |s| && a < b < |s| && a != i && b != i
    ensures var r := RemoveAt(s, i);
      var a' := if a < i then a else a - 1;
      var b' := if b < i then b else b - 1;
      a' < b' < |r| && r[a'] == s[a] && r[b'] == s[b]
  {
  }

  class WaterListHandlers<T> {
    var waterList: seq<T>

    /** A new list is empty. */
    constructor()
      ensures waterList == []
    {
      waterList := [];
    }

    /** Appends at the end. */
    method AddWaterEntry(entry: T)
      modifies this
      ensures waterList == old(waterList) + [entry]
    {
      waterList := waterList + [entry];
    }

    /** Removes the entry at `index` when there is one; otherwise does
        nothing. */
    method RemoveWaterEntry(index: int)
      modifies this
      ensures 0 <= index < |old(waterList)| ==> waterList == RemoveAt(old(waterList), index)
      ensures !(0 <= index < |old(waterList)|) ==> waterList == old(waterList)
    {
      if index >= 0 && index < |waterList| {
        waterList := waterList[..index] + waterList[index + 1..];
      }
    }

    method GetWaterList() returns (list: seq<T>)
      ensures list == waterList
    {
      list := waterList;
    }

    /** Empties the list. */
    method ClearWaterList()
      modifies this
      ensures waterList == []
    {
      waterList := [];
    }
  }

  /** Adding an entry and then removing the last position gives back the
      list as it was. */
  method AddThenRemoveLast<T>(entries: seq<T>, entry: T) returns (list: seq<T>)
    ensures list == entries
  {
    var handlers := new WaterListHandlers<T>();
    handlers.waterList := entries;
    handlers.AddWaterEntry(entry);
    handlers.RemoveWaterEntry(|entries|);
    list := handlers.GetWaterList();
    assert RemoveAt(entries + [entry], |entries|) == entries;
  }
}
