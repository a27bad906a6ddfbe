/** The in-place shuffle behind every pointer-chase pattern, and exactly which arrays it can produce. */
module Shuffle {
  import opened Cycles

  /** The partner of position i for a random number r: position 1 always takes 0, and position
      i >= 2 takes r modulo i - 1, so never i - 1 itself. */
  function Draw(i: nat, r: nat): (j: nat)
    requires i >= 1
    ensures j < i && (i >= 2 ==> j < i - 1)
  {
    if i - 1 == 0 then 0 else r % (i - 1)
  }

  /** Partners for the positions 1 .. |js|-1 (entry 0 is not used), each below its position. */
  ghost predicate Partners(js: seq<nat>) {
    forall i :: 1 <= i < |js| ==> js[i] < i
  }

  /** The partners that the random numbers rs (entry i for position i) lead to. */
  function Drawn(rs: seq<nat>): (js: seq<nat>)
    ensures |js| == |rs| && Partners(js)
  {
    seq(|rs|, i requires 0 <= i < |rs| => if i == 0 then 0 else Draw(i, rs[i]))
  }

  function Identity(n: nat): seq<nat> {
    seq(n, i requires 0 <= i < n => i)
  }

  function Swap(a: seq<nat>, i: nat, j: nat): (b: seq<nat>)
    requires i < |a| && j < |a|
    ensures |b| == |a|
  {
    a[i := a[j]][j := a[i]]
  }

  /** Positions i, i-1, .., 1 of a swapped with their partners in turn. */
  function Swaps(a: seq<nat>, i: nat, js: seq<nat>): (b: seq<nat>)
    requires Partners(js) && (i == 0 || (i < |a| && i < |js|))
    ensures |b| == |a|
    decreases i
  {
    if i == 0 then a else Swaps(Swap(a, i, js[i]), i - 1, js)
  }

  /** The array the shuffle leaves, for the partners js. */
  function Shuffled(js: seq<nat>): (p: seq<nat>)
    requires Partners(js)
    ensures |p| == |js|
  {
    Swaps(Identity(|js|), if js == [] then 0 else |js| - 1, js)
  }

  // ----- the shuffle splices one element after another into a cycle

  /** The cycle built by splicing 1, 2, .. in before their partners. */
  function Built(js: seq<nat>): (p: seq<nat>)
    requires Partners(js)
    ensures |p| == |js|
  {
    if |js| <= 1 then Identity(|js|) else Insert(Built(js[..|js| - 1]), js[|js| - 1])
  }

  lemma {:induction false} SwapsInsert(a: seq<nat>, i: nat, js: seq<nat>, j: nat)
    requires Partners(js) && (i == 0 || (i < |a| && i < |js|))
    ensures Swaps(Insert(a, j), i, js) == Insert(Swaps(a, i, js), j)
    decreases i
  {
    if i != 0 {
      SwapsInsert(Swap(a, i, js[i]), i - 1, js, j);
      assert Swap(Insert(a, j), i, js[i]) == Insert(Swap(a, i, js[i]), j);
    }
  }

  lemma {:induction false} SwapsPrefix(a: seq<nat>, i: nat, js: seq<nat>, js': seq<nat>)
    requires Partners(js) && Partners(js') && js <= js' && (i == 0 || (i < |a| && i < |js|))
    ensures Swaps(a, i, js) == Swaps(a, i, js')
    decreases i
  {
    if i != 0 {
      SwapsPrefix(Swap(a, i, js[i]), i - 1, js, js');
    }
  }

  lemma {:induction false} ShuffledIsBuilt(js: seq<nat>)
    requires Partners(js)
    ensures Shuffled(js) == Built(js)
    decreases |js|
  {
    if |js| >= 2 {
      var m := |js| - 1;
      var front, j := js[..m], js[m];
      ShuffledIsBuilt(front);
      assert Swap(Identity(m + 1), m, j) == Insert(Identity(m), j);
      SwapsInsert(Identity(m), m - 1, front, j);
      SwapsPrefix(Insert(Identity(m), j), m - 1, front, js);
    }
  }

  /** Whatever is drawn, the shuffle of n >= 1 elements leaves one single cycle over all of them. */
  lemma {:induction false} ShuffleIsCycle(js: seq<nat>)
    requires Partners(js) && js != []
    ensures SingleCycle(Shuffled(js))
    decreases |js|
  {
    ShuffledIsBuilt(js);
    if |js| == 1 {
      var p := Shuffled(js);
      assert p == [0] && p[0] in p && After(1, 0) == 0;
      assert Order(p, p);
    } else {
      var front := js[..|js| - 1];
      ShuffleIsCycle(front);
      ShuffledIsBuilt(front);
      InsertCycle(Built(front), js[|js| - 1]);
    }
  }

  // ----- the draws can be read back, and which cycles are reached

  /** The partners that lead to the cycle p. */
  function Decoded(p: seq<nat>): (js: seq<nat>)
    ensures |js| == |p|
    decreases |p|
  {
    if |p| <= 1 then Identity(|p|) else Decoded(Remove(p)) + [p[|p| - 1]]
  }

  /** The draws are determined by the array. */
  lemma {:induction false} DecodeShuffled(js: seq<nat>)
    requires Partners(js)
    ensures |Decoded(Shuffled(js))| == |js|
    ensures forall i :: 1 <= i < |js| ==> Decoded(Shuffled(js))[i] == js[i]
    decreases |js|
  {
    if |js| >= 2 {
      var m := |js| - 1;
      var front := js[..m];
      DecodeShuffled(front);
      ShuffledIsBuilt(js);
      ShuffledIsBuilt(front);
      ShuffleIsCycle(front);
      CycleInjective(Shuffled(front));
      RemoveInsert(Built(front), js[m]);
    }
  }

  /** With all partners below their positions allowed, every single cycle is reached. */
  lemma {:induction false} ShuffleDecoded(p: seq<nat>)
    requires SingleCycle(p)
    ensures Partners(Decoded(p)) && Shuffled(Decoded(p)) == p
    decreases |p|
  {
    var js := Decoded(p);
    if |p| >= 2 {
      RemoveCycle(p);
      ShuffleDecoded(Remove(p));
      assert js[..|js| - 1] == Decoded(Remove(p));
      ShuffledIsBuilt(js);
      ShuffledIsBuilt(js[..|js| - 1]);
    } else if |p| == 1 {
      var c :| Order(p, c);
      assert p[0] == 0 by { OrderInRange(p, c); }
    }
  }

  /** No element m >= 2 leads to m - 1 once all larger elements are bypassed. */
  ghost predicate NeverDown(p: seq<nat>)
    decreases |p|
  {
    |p| >= 3 ==> p[|p| - 1] != |p| - 2 && NeverDown(Remove(p))
  }

  lemma {:induction false} NeverDownDecoded(p: seq<nat>)
    ensures NeverDown(p) <==> forall i :: 2 <= i < |p| ==> Decoded(p)[i] != i - 1
    decreases |p|
  {
    if |p| >= 3 {
      var js, before := Decoded(p), Decoded(Remove(p));
      assert js == before + [p[|p| - 1]];
      NeverDownDecoded(Remove(p));
      if forall i :: 2 <= i < |p| ==> js[i] != i - 1 {
        assert js[|p| - 1] != |p| - 2;
        forall i | 2 <= i < |p| - 1
          ensures before[i] != i - 1
        {
          assert js[i] == before[i];
        }
      } else {
        var i :| 2 <= i < |p| && js[i] == i - 1;
        if i == |p| - 1 {
          assert p[|p| - 1] == |p| - 2;
        } else {
          assert before[i] == js[i];
          assert Decoded(Remove(p))[i] == i - 1 && 2 <= i < |Remove(p)|;
        }
      }
    }
  }

  /** Some random numbers make the shuffle leave p. */
  ghost predicate Reachable(p: seq<nat>) {
    exists rs :: Leaves(rs, p)
  }

  ghost predicate Leaves(rs: seq<nat>, p: seq<nat>) {
    |rs| == |p| && Shuffled(Drawn(rs)) == p
  }

  /** The arrays the shuffle can leave are exactly the single cycles that never step down. */
  lemma ShuffleImage(p: seq<nat>)
    requires p != []
    ensures Reachable(p) <==> SingleCycle(p) && NeverDown(p)
  {
    hide SingleCycle, NeverDown, Leaves;
    if Reachable(p) {
      var rs :| Leaves(rs, p);
      ImageSound(rs, p);
    }
    if SingleCycle(p) && NeverDown(p) {
      ImageComplete(p);
      assert Leaves(Decoded(p), p);
    }
  }

  lemma ImageSound(rs: seq<nat>, p: seq<nat>)
    requires p != [] && Leaves(rs, p)
    ensures SingleCycle(p) && NeverDown(p)
  {
    hide Shuffled, NeverDown, SingleCycle;
    var js := Drawn(rs);
    ShuffleIsCycle(js);
    DecodeShuffled(js);
    NeverDownDecoded(p);
    assert forall i :: 2 <= i < |p| ==> Decoded(p)[i] == js[i] != i - 1;
  }

  lemma ImageComplete(p: seq<nat>)
    requires SingleCycle(p) && NeverDown(p)
    ensures Leaves(Decoded(p), p)
  {
    hide Shuffled, NeverDown, SingleCycle;
    NeverDownDecoded(p);
    ShuffleDecoded(p);
    var js := Decoded(p);
    DrawnExactly(js);
    SamePartners(Drawn(js), js);
  }

  /** Element 0 leads to element t if and only if t was spliced in before 0's successor of the time, and
      nothing was spliced in before t later. */
  lemma {:induction false} ZeroLeadsTo(js: seq<nat>, t: nat)
    requires Partners(js) && 1 <= t < |js|
    ensures Shuffled(js)[0] == t <==> js[t] == Shuffled(js[..t])[0] && forall i :: t < i < |js| ==> js[i] != t
    decreases |js|
  {
    ShuffledIsBuilt(js);
    var m := |js| - 1;
    var front := js[..m];
    ShuffledIsBuilt(front);
    BuiltBelow(front);
    assert Built(js)[0] == if Built(front)[0] == js[m] then m else Built(front)[0];
    if t < m {
      ZeroLeadsTo(front, t);
      assert front[..t] == js[..t];
    }
  }

  /** The draws that make element 0 lead to element 4: 3 is spliced in before 0, 4 before 1, and nothing before 4. */
  ghost predicate ZeroToFour(rs: seq<nat>) {
    |rs| >= 5 && rs[3] % 2 == 0 && rs[4] % 3 == 1 && forall i :: 5 <= i < |rs| ==> rs[i] % (i - 1) != 4
  }

  /** Such draws exist for every list that has an element 4. */
  lemma ZeroToFourHappens(n: nat)
    requires n >= 5
    ensures ZeroToFour(seq(n, i => if i == 4 then 1 else 0))
  {
  }

  lemma ZeroLeadsToFour(rs: seq<nat>)
    requires |rs| >= 5
    ensures Shuffled(Drawn(rs))[0] == 4 <==> ZeroToFour(rs)
  {
    var js := Drawn(rs);
    ZeroLeadsTo(js, 4);
    FirstThree(js);
    assert js[3] == rs[3] % 2 && js[4] == rs[4] % 3;
    assert forall i :: 5 <= i < |rs| ==> js[i] == rs[i] % (i - 1);
  }

  lemma FirstThree(js: seq<nat>)
    requires Partners(js) && |js| >= 5 && js[2] == 0 && js[3] <= 1
    ensures Shuffled(js[..4])[0] == if js[3] == 0 then 1 else 3
  {
    ShuffledIsBuilt(js[..4]);
    assert js[..4][..3] == js[..3] && js[..3][..2] == js[..2] && js[..2][..1] == js[..1];
    assert Built(js[..1]) == [0];
    assert Built(js[..2]) == [1, 0];
    assert Built(js[..3]) == [1, 2, 0];
  }

  lemma BuiltBelow(js: seq<nat>)
    requires Partners(js) && js != []
    ensures Built(js)[0] < |js|
  {
    ShuffledIsBuilt(js);
    ShuffleIsCycle(js);
    CycleTours(Shuffled(js), 0);
  }

  /** Partners that avoid i - 1 are their own random numbers. */
  lemma DrawnExactly(js: seq<nat>)
    requires Partners(js) && forall i :: 2 <= i < |js| ==> js[i] != i - 1
    ensures forall i :: 1 <= i < |js| ==> Drawn(js)[i] == js[i]
  {
    forall i | 1 <= i < |js|
      ensures Drawn(js)[i] == js[i]
    {
      DrawSmall(i, js[i]);
    }
  }

  lemma DrawSmall(i: nat, j: nat)
    requires i >= 1 && j < i && (i >= 2 ==> j != i - 1)
    ensures Draw(i, j) == j
  {
  }

  lemma {:induction false} SamePartners(js: seq<nat>, js': seq<nat>)
    requires Partners(js) && Partners(js') && |js| == |js'| && forall i :: 1 <= i < |js| ==> js[i] == js'[i]
    ensures Shuffled(js) == Shuffled(js')
    decreases |js|
  {
    ShuffledIsBuilt(js);
    ShuffledIsBuilt(js');
    if |js| >= 2 {
      var m := |js| - 1;
      SamePartners(js[..m], js'[..m]);
      ShuffledIsBuilt(js[..m]);
      ShuffledIsBuilt(js'[..m]);
    }
  }

  /** From the array a run leaves every random number can be read back modulo what it was reduced by. */
  lemma ReadBack(rs: seq<nat>)
    ensures |Decoded(Shuffled(Drawn(rs)))| == |rs|
    ensures |rs| >= 2 ==> Decoded(Shuffled(Drawn(rs)))[1] == 0
    ensures forall i {:trigger rs[i]} :: 2 <= i < |rs| ==> Decoded(Shuffled(Drawn(rs)))[i] == rs[i] % (i - 1)
  {
    hide Decoded, Shuffled;
    DecodeShuffled(Drawn(rs));
  }

  /** Two runs that leave the same array drew the same numbers, modulo what they are reduced by. */
  lemma ShuffleInjective(rs: seq<nat>, rs': seq<nat>)
    requires |rs| == |rs'| && Shuffled(Drawn(rs)) == Shuffled(Drawn(rs'))
    ensures forall i {:trigger rs[i]} :: 2 <= i < |rs| ==> rs[i] % (i - 1) == rs'[i] % (i - 1)
  {
    hide Decoded, Shuffled, Drawn;
    ReadBack(rs);
    ReadBack(rs');
    forall i {:trigger rs[i]} | 2 <= i < |rs|
      ensures rs[i] % (i - 1) == rs'[i] % (i - 1)
    {
      assert Decoded(Shuffled(Drawn(rs)))[i] == rs[i] % (i - 1);
      assert rs'[i] % (i - 1) == Decoded(Shuffled(Drawn(rs')))[i];
    }
  }

  /** Each element leads to the one below it, and 0 to the last. */
  function Descending(n: nat): seq<nat> {
    seq(n, i requires 0 <= i < n => if i == 0 then n - 1 else i - 1)
  }

  /** For n >= 3 there is a single cycle (and Sattolo's shuffle would reach it) that this shuffle never leaves. */
  lemma MissedCycle(n: nat)
    requires n >= 3
    ensures SingleCycle(Descending(n))
    ensures !Reachable(Descending(n))
  {
    var p := Descending(n);
    var c := seq(n, a requires 0 <= a < n => n - 1 - a);
    forall x | 0 <= x < n
      ensures x in c
    {
      assert c[n - 1 - x] == x;
    }
    assert Order(p, c);
    ShuffleImage(p);
  }
}
