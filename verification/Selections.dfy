/** runIndirectBranchTest: the selection arrays that tell each branch which target to take. */
module Selections {

  /** Cycle through the targets, choose at random, or always take the middle one. */
  datatype Mode = Cycle | Random | Middle

  function Pick(mode: Mode, targetCount: nat, i: nat, r: nat): (t: nat)
    requires i < targetCount
    ensures t < targetCount
  {
    match mode
    case Cycle => i
    case Random => r % targetCount
    case Middle => targetCount / 2
  }

  /** The array of one branch; rs holds the values of rand. */
  method FillSelection(targetCount: nat, mode: Mode, rs: seq<nat>) returns (testArr: array<nat>)
    requires |rs| == targetCount
    ensures fresh(testArr) && testArr.Length == targetCount
    ensures forall i :: 0 <= i < targetCount ==> testArr[i] == Pick(mode, targetCount, i, rs[i])
  {
    testArr := new nat[targetCount];
    match mode
    case Random =>
      for i := 0 to targetCount
        invariant forall k :: 0 <= k < i ==> testArr[k] == Pick(mode, targetCount, k, rs[k])
      {
        testArr[i] := rs[i] % targetCount;
      }
    case Cycle =>
      for i := 0 to targetCount
        invariant forall k :: 0 <= k < i ==> testArr[k] == Pick(mode, targetCount, k, rs[k])
      {
        testArr[i] := i;
      }
    case Middle =>
      for i := 0 to targetCount
        invariant forall k :: 0 <= k < i ==> testArr[k] == Pick(mode, targetCount, k, rs[k])
      {
        testArr[i] := targetCount / 2;
      }
  }

  /** One array per branch. Whatever the mode and the random numbers, every entry names one of the targets, which is
      what the emitted programs need of their patterns. */
  method FillSelections(branchCount: nat, targetCount: nat, mode: Mode, rs: seq<seq<nat>>) returns (picks: seq<seq<nat>>)
    requires |rs| == branchCount && forall b :: 0 <= b < branchCount ==> |rs[b]| == targetCount
    ensures |picks| == branchCount
    ensures forall b :: 0 <= b < branchCount ==> |picks[b]| == targetCount && forall i :: 0 <= i < targetCount ==> picks[b][i] < targetCount
    ensures forall b, i {:trigger picks[b][i]} :: 0 <= b < branchCount && 0 <= i < targetCount ==>
      && (mode == Cycle ==> picks[b][i] == i)
      && (mode == Random ==> picks[b][i] == rs[b][i] % targetCount)
      && (mode == Middle ==> picks[b][i] == targetCount / 2)
  {
    picks := [];
    for testArrIdx := 0 to branchCount
      invariant |picks| == testArrIdx
      invariant forall b :: 0 <= b < testArrIdx ==> |picks[b]| == targetCount
      invariant forall b, i {:trigger picks[b][i]} :: 0 <= b < testArrIdx && 0 <= i < targetCount ==>
        picks[b][i] == Pick(mode, targetCount, i, rs[b][i])
    {
      var testArr := FillSelection(targetCount, mode, rs[testArrIdx]);
      picks := picks + [testArr[..]];
    }
  }
}
