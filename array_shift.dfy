/** `shiftAndDelete` of gui/util.js: a non-circular shift of an array by
    `amount` places (right when positive, left when negative) into a fresh
    array of the same length; the slots nothing lands in stay `undefined`
    (`None`). */
module ArrayShift {
  import opened Outcomes

  /** The shifted contents, slot by slot: slot `j` holds the element that was
      `amount` places before it, if there was one. */
  function Shifted<T>(s: seq<Option<T>>, amount: int): (r: seq<Option<T>>)
    ensures |r| == |s|
  {
    seq(|s|, j requires 0 <= j < |s| => if 0 <= j - amount < |s| then s[j - amount] else None)
  }

  /** `shiftAndDelete(arr, amount)`: every element goes to its index plus
      `amount` when that index is inside the array. */
  method ShiftAndDelete<T>(arr: seq<Option<T>>, amount: int) returns (newArr: array<Option<T>>)
    ensures fresh(newArr) && newArr[..] == Shifted(arr, amount)
  {
    newArr := new Option<T>[|arr|](_ => None);
    for i := 0 to |arr|
      invariant forall j :: 0 <= j < newArr.Length ==>
        newArr[j] == (if 0 <= j - amount < i then arr[j - amount] else None)
    {
      var newIndex := i + amount;
      if newIndex >= 0 && newIndex < |arr| {
        newArr[newIndex] := arr[i];
      }
    }
  }

  /** Each element moves by exactly `amount` when it lands inside, and a slot
      nothing lands in is `undefined`. */
  lemma ShiftedMoves<T>(s: seq<Option<T>>, amount: int)
    ensures forall i :: 0 <= i < |s| && 0 <= i + amount < |s| ==> Shifted(s, amount)[i + amount] == s[i]
    ensures forall j :: 0 <= j < |s| && !(0 <= j - amount < |s|) ==> Shifted(s, amount)[j] == None
  {
    forall i | 0 <= i < |s| && 0 <= i + amount < |s|
      ensures Shifted(s, amount)[i + amount] == s[i]
    {
      assert (i + amount) - amount == i;
    }
  }

  /** A shift by zero is a copy; a shift by the length or more empties every slot. */
  lemma ShiftedExtremes<T>(s: seq<Option<T>>, amount: int)
    ensures Shifted(s, 0) == s
    ensures amount >= |s| || amount <= -|s| ==> forall j :: 0 <= j < |s| ==> Shifted(s, amount)[j] == None
  {
  }

  /** Shifting by `k` and back by `-k` restores every element that stayed
      inside, and leaves the others `undefined`. */
  lemma ShiftedBack<T>(s: seq<Option<T>>, k: int)
    ensures var r := Shifted(Shifted(s, k), -k);
      |r| == |s| && forall i :: 0 <= i < |s| ==> r[i] == (if 0 <= i + k < |s| then s[i] else None)
  {
    var once := Shifted(s, k);
    var r := Shifted(once, -k);
    forall i | 0 <= i < |s|
      ensures r[i] == (if 0 <= i + k < |s| then s[i] else None)
    {
      if 0 <= i + k < |s| {
        assert r[i] == once[i + k];
        assert (i + k) - k == i;
      }
    }
  }
}
