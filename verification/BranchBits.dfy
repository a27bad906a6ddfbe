/** The history that the conditional branches of an indirect-branch test leave: in every block one branch per low bit of
    the selection, lowest first, and one branch that closes each iteration. */
module BranchBits {
  import opened Words
  import opened JumpTables

  /** The bits a block branches on: four on RISC-V, seven on x86. */
  function BitsOf(pick: nat, wide: bool): seq<bool> {
    var four := [pick % 2 == 1, pick / 2 % 2 == 1, pick / 4 % 2 == 1, pick / 8 % 2 == 1];
    if wide then four + [pick / 16 % 2 == 1, pick / 32 % 2 == 1, pick / 64 % 2 == 1] else four
  }

  /** One iteration at pattern position pos: the bits of every branch's selection in order. */
  function RoundBits(e: Tables, pos: nat, n: nat, wide: bool): seq<bool>
    requires n <= |e.picks| && forall b :: 0 <= b < n ==> pos < |e.picks[b]|
  {
    if n == 0 then [] else RoundBits(e, pos, n - 1, wide) + BitsOf(e.picks[n - 1][pos], wide)
  }

  /** The iterations k .. k+n-1: iteration k is at position k modulo the pattern length, and all but the last loop back. */
  function History(e: Tables, bc: nat, len: nat, k: nat, n: nat, wide: bool): seq<bool>
    requires len >= 1 && bc <= |e.picks| && forall b :: 0 <= b < bc ==> |e.picks[b]| == len
    decreases n
  {
    if n == 0 then [] else RoundBits(e, k % len, bc, wide) + [n > 1] + History(e, bc, len, k + 1, n - 1, wide)
  }

  // ----- how many are taken

  function Taken(outcomes: seq<bool>): nat {
    if outcomes == [] then 0 else Taken(outcomes[..|outcomes| - 1]) + if outcomes[|outcomes| - 1] then 1 else 0
  }

  lemma {:induction false} TakenAppend(a: seq<bool>, b: seq<bool>)
    ensures Taken(a + b) == Taken(a) + Taken(b)
    decreases |b|
  {
    if b == [] {
      assert a + b == a;
    } else {
      var front := b[..|b| - 1];
      TakenAppend(a, front);
      assert (a + b)[..|a + b| - 1] == a + front;
    }
  }

  /** As many of a block's branches are taken as its selection has ones among the bits. */
  lemma BitsTaken(pick: nat, wide: bool)
    ensures Taken(BitsOf(pick, wide)) == Ones(pick, wide)
  {
    hide Taken;
    var four, three := BitsOf(pick, false), [pick / 16 % 2 == 1, pick / 32 % 2 == 1, pick / 64 % 2 == 1];
    TakenFour(pick % 2 == 1, pick / 2 % 2 == 1, pick / 4 % 2 == 1, pick / 8 % 2 == 1);
    TakenThree(pick / 16 % 2 == 1, pick / 32 % 2 == 1, pick / 64 % 2 == 1);
    TakenAppend(four, three);
  }

  function One(b: bool): nat {
    if b then 1 else 0
  }

  lemma TakenOne(b: bool)
    ensures Taken([b]) == One(b) && Taken([]) == 0
  {
    assert [b][..0] == [];
  }

  lemma TakenThree(a: bool, b: bool, c: bool)
    ensures Taken([a, b, c]) == One(a) + One(b) + One(c)
  {
    hide Taken, One;
    TakenOne(a);
    TakenOne(b);
    TakenOne(c);
    TakenAppend([a], [b]);
    TakenAppend([a] + [b], [c]);
    assert [a, b, c] == [a] + [b] + [c];
  }

  lemma TakenFour(a: bool, b: bool, c: bool, d: bool)
    ensures Taken([a, b, c, d]) == One(a) + One(b) + One(c) + One(d)
  {
    hide Taken, One;
    TakenThree(a, b, c);
    TakenOne(d);
    TakenAppend([a, b, c], [d]);
    assert [a, b, c, d] == [a, b, c] + [d];
  }

  /** The ones among a selection's low bits. */
  function Ones(pick: nat, wide: bool): nat {
    pick % 2 + pick / 2 % 2 + pick / 4 % 2 + pick / 8 % 2
      + if wide then pick / 16 % 2 + pick / 32 % 2 + pick / 64 % 2 else 0
  }

  function RoundOnes(e: Tables, pos: nat, n: nat, wide: bool): nat
    requires n <= |e.picks| && forall b :: 0 <= b < n ==> pos < |e.picks[b]|
  {
    if n == 0 then 0 else RoundOnes(e, pos, n - 1, wide) + Ones(e.picks[n - 1][pos], wide)
  }

  /** All the ones that the iterations k .. k+n-1 read, and one more for every iteration but the last. */
  function AllOnes(e: Tables, bc: nat, len: nat, k: nat, n: nat, wide: bool): nat
    requires len >= 1 && bc <= |e.picks| && forall b :: 0 <= b < bc ==> |e.picks[b]| == len
    decreases n
  {
    if n == 0 then 0 else RoundOnes(e, k % len, bc, wide) + (if n > 1 then 1 else 0) + AllOnes(e, bc, len, k + 1, n - 1, wide)
  }

  lemma {:induction false} RoundTaken(e: Tables, pos: nat, n: nat, wide: bool)
    requires n <= |e.picks| && forall b :: 0 <= b < n ==> pos < |e.picks[b]|
    ensures Taken(RoundBits(e, pos, n, wide)) == RoundOnes(e, pos, n, wide)
  {
    hide Taken, Ones, BitsOf;
    if n == 0 {
      TakenOne(false);
    } else {
      RoundTaken(e, pos, n - 1, wide);
      BitsTaken(e.picks[n - 1][pos], wide);
      TakenAppend(RoundBits(e, pos, n - 1, wide), BitsOf(e.picks[n - 1][pos], wide));
    }
  }

  /** The number of branches taken in a whole call. */
  lemma {:induction false} HistoryTaken(e: Tables, bc: nat, len: nat, k: nat, n: nat, wide: bool)
    requires len >= 1 && bc <= |e.picks| && forall b :: 0 <= b < bc ==> |e.picks[b]| == len
    ensures Taken(History(e, bc, len, k, n, wide)) == AllOnes(e, bc, len, k, n, wide)
    decreases n
  {
    hide Taken, RoundBits, RoundOnes;
    if n == 0 {
      TakenOne(false);
    } else {
      var round, rest := RoundBits(e, k % len, bc, wide), History(e, bc, len, k + 1, n - 1, wide);
      RoundTaken(e, k % len, bc, wide);
      HistoryTaken(e, bc, len, k + 1, n - 1, wide);
      TakenOne(n > 1);
      TakenAppend(round, [n > 1]);
      TakenAppend(round + [n > 1], rest);
    }
  }

  // ----- how many lines are passed

  /** A block passes the lines before its jump, less one for every branch taken, the jump, and two lines for each of the
      targets from the selected one on. */
  function BlockLines(pick: nat, tc: nat, wide: bool): int {
    (if wide then 44 else 36) - Ones(pick, wide) + 2 * (tc - pick)
  }

  function RoundLines(e: Tables, tc: nat, pos: nat, n: nat, wide: bool): int
    requires n <= |e.picks| && forall b :: 0 <= b < n ==> pos < |e.picks[b]|
  {
    if n == 0 then 0 else RoundLines(e, tc, pos, n - 1, wide) + BlockLines(e.picks[n - 1][pos], tc, wide)
  }

  /** The iterations k .. k+n-1: their blocks, and seven lines around them on x86 or ten on RISC-V. */
  function AllLines(e: Tables, bc: nat, tc: nat, len: nat, k: nat, n: nat, wide: bool): int
    requires len >= 1 && bc <= |e.picks| && forall b :: 0 <= b < bc ==> |e.picks[b]| == len
    decreases n
  {
    if n == 0 then 0 else RoundLines(e, tc, k % len, bc, wide) + (if wide then 7 else 10) + AllLines(e, bc, tc, len, k + 1, n - 1, wide)
  }

  lemma AllLinesUnfold(e: Tables, bc: nat, tc: nat, len: nat, k: nat, n: nat, wide: bool)
    requires len >= 1 && n >= 1 && bc <= |e.picks| && forall b :: 0 <= b < bc ==> |e.picks[b]| == len
    ensures AllLines(e, bc, tc, len, k, n, wide)
      == RoundLines(e, tc, k % len, bc, wide) + (if wide then 7 else 10) + AllLines(e, bc, tc, len, k + 1, n - 1, wide)
    ensures AllLines(e, bc, tc, len, k + 1, 0, wide) == 0
  {
    hide RoundLines;
  }

  lemma FirstTaken(pick: nat)
    ensures Taken(FirstBits(pick, 4)) == Ones(pick, false) && Taken(FirstBits(pick, 7)) == Ones(pick, true)
  {
    hide Taken, Ones, BitsOf, FirstBits;
    FirstBitsAre(pick);
    BitsTaken(pick, false);
    BitsTaken(pick, true);
  }

  lemma TakenMore(pick: nat, n: nat)
    ensures Taken(FirstBits(pick, n + 1)) == Taken(FirstBits(pick, n)) + (if Bit(pick, n) then 1 else 0)
    ensures Taken(FirstBits(pick, 0)) == 0
  {
    hide Bit;
    FirstBitsMore(pick, n);
    assert FirstBits(pick, n + 1)[..n] == FirstBits(pick, n);
  }

  // ----- testing a bit

  /** Bit g counted from the least significant. */
  predicate Bit(x: nat, g: nat)
    decreases g
  {
    if g == 0 then x % 2 == 1 else Bit(x / 2, g - 1)
  }

  lemma {:induction false} BitTest(x: nat, g: nat)
    ensures BitAnd(x, Pow2(g)) != 0 <==> Bit(x, g)
    decreases g
  {
    if g == 0 {
      LowBit(x);
    } else {
      BitTest(x / 2, g - 1);
      HighBits(x, Pow2(g - 1));
    }
  }

  lemma {:induction false} AndCommutes(x: nat, y: nat)
    ensures BitAnd(x, y) == BitAnd(y, x)
    decreases x
  {
    if x != 0 && y != 0 {
      AndCommutes(x / 2, y / 2);
    }
  }

  lemma LowBit(x: nat)
    ensures BitAnd(x, 1) != 0 <==> x % 2 == 1
  {
    if x != 0 {
      NoneSet(x / 2);
    }
  }

  lemma NoneSet(x: nat)
    ensures BitAnd(x, 0) == 0
  {
  }

  lemma HighBits(x: nat, h: nat)
    requires h >= 1
    ensures BitAnd(x, 2 * h) == 2 * BitAnd(x / 2, h)
  {
    assert 2 * h % 2 == 0 && 2 * h / 2 == h;
  }

  function FirstBits(pick: nat, n: nat): (r: seq<bool>)
    ensures |r| == n
  {
    seq(n, g requires 0 <= g < n => Bit(pick, g))
  }

  lemma FirstBitsAre(pick: nat)
    ensures FirstBits(pick, 4) == BitsOf(pick, false) && FirstBits(pick, 7) == BitsOf(pick, true)
  {
    hide Bit;
    ThreeBits(pick, 0);
    ThreeBits(pick, 3);
    ThreeBits(pick, 6);
    ThreeDown(pick);
  }

  /** Three bits at a time. */
  lemma ThreeBits(x: nat, g: nat)
    ensures Bit(x, 0) == (x % 2 == 1) && Bit(x, 1) == (x / 2 % 2 == 1) && Bit(x, 2) == (x / 4 % 2 == 1)
    ensures g >= 3 ==> Bit(x, g) == Bit(x / 8, g - 3)
  {
    Quarters(x);
    assert Bit(x, 1) == Bit(x / 2, 0) && Bit(x, 2) == Bit(x / 2, 1) == Bit(x / 2 / 2, 0);
    if g >= 3 {
      assert Bit(x, g) == Bit(x / 2, g - 1) == Bit(x / 2 / 2, g - 2) == Bit(x / 2 / 2 / 2, g - 3);
    }
  }

  lemma Quarters(x: nat)
    ensures x / 2 / 2 == x / 4 && x / 2 / 2 / 2 == x / 8
  {
  }

  lemma ThreeDown(x: nat)
    ensures Bit(x, 3) == (x / 8 % 2 == 1) && Bit(x, 4) == (x / 16 % 2 == 1)
    ensures Bit(x, 5) == (x / 32 % 2 == 1) && Bit(x, 6) == (x / 64 % 2 == 1)
  {
    hide Bit;
    ThreeBits(x, 3);
    ThreeBits(x, 4);
    ThreeBits(x, 5);
    ThreeBits(x, 6);
    ThreeBits(x / 8, 3);
    ThreeBits(x / 8 / 8, 0);
    Eighths(x);
  }

  lemma Eighths(x: nat)
    ensures x / 8 / 2 == x / 16 && x / 8 / 4 == x / 32 && x / 8 / 8 == x / 64
  {
  }

  lemma FirstBitsMore(pick: nat, n: nat)
    ensures FirstBits(pick, n + 1) == FirstBits(pick, n) + [Bit(pick, n)]
  {
    hide Bit;
  }

  lemma HistoryUnfold(e: Tables, bc: nat, len: nat, k: nat, n: nat, wide: bool)
    requires len >= 1 && n >= 1 && bc <= |e.picks| && forall b :: 0 <= b < bc ==> |e.picks[b]| == len
    ensures History(e, bc, len, k, n, wide) == RoundBits(e, k % len, bc, wide) + [n > 1] + History(e, bc, len, k + 1, n - 1, wide)
    ensures n == 1 ==> History(e, bc, len, k, n, wide) == RoundBits(e, k % len, bc, wide) + [false]
  {
    hide RoundBits;
    assert History(e, bc, len, k + 1, 0, wide) == [];
  }
}
