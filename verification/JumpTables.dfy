/** The memory an indirect-branch test works on: per branch a jump table to fill and a selection array to read. */
module JumpTables {
  import opened Words
  import opened Listing
  import opened Machine
  import opened Symbols

  /** tableArr and selArr are the addresses of the two pointer arrays; tables[b] and sels[b] what they
      hold; picks[b] the selection array of branch b. */
  datatype Tables = Tables(tableArr: nat, selArr: nat, tables: seq<nat>, sels: seq<nat>, picks: seq<seq<nat>>)

  ghost predicate Apart(a: nat, n: nat, b: nat, m: nat) {
    a + n <= b || b + m <= a
  }

  /** The n bytes at a are none of those the program only reads. */
  ghost predicate Outside(e: Tables, len: nat, a: nat, n: nat) {
    && Apart(a, n, e.tableArr, 8 * |e.tables|) && Apart(a, n, e.selArr, 8 * |e.sels|)
    && forall b :: 0 <= b < |e.sels| ==> Apart(a, n, e.sels[b], 4 * len)
  }

  /** bc branches with tc targets and patterns of length len: every selection names a target, everything
      lies inside the address space, and tables, frame [lo, hi) and inputs do not overlap. */
  ghost predicate WellPlaced(e: Tables, bc: nat, tc: nat, len: nat, lo: nat, hi: nat) {
    && |e.tables| == bc && |e.sels| == bc && |e.picks| == bc && lo <= hi
    && e.tableArr + 8 * bc <= TWO64 && e.selArr + 8 * bc <= TWO64
    && (forall b :: 0 <= b < bc ==> e.tables[b] + 8 * tc <= TWO64 && Outside(e, len, e.tables[b], 8 * tc))
    && (forall b :: 0 <= b < bc ==> e.sels[b] + 4 * len <= TWO64)
    && (forall b :: 0 <= b < bc ==> Apart(e.tables[b], 8 * tc, lo, hi - lo))
    && Outside(e, len, lo, hi - lo)
    && (forall b, b' :: 0 <= b < b' < bc ==> Apart(e.tables[b], 8 * tc, e.tables[b'], 8 * tc))
    && (forall b :: 0 <= b < bc ==> |e.picks[b]| == len && forall i :: 0 <= i < len ==> e.picks[b][i] < tc)
  }

  /** The pointer and selection arrays are in memory. */
  ghost predicate Inputs(m: Memory, e: Tables, bc: nat, len: nat) {
    && |e.tables| == bc && |e.sels| == bc && |e.picks| == bc
    && (forall b :: 0 <= b < bc ==> Load64(m, e.tableArr + 8 * b) == e.tables[b])
    && (forall b :: 0 <= b < bc ==> Load64(m, e.selArr + 8 * b) == e.sels[b])
    && (forall b, i {:trigger e.picks[b][i]} :: 0 <= b < bc && 0 <= i < len && len == |e.picks[b]| ==>
          Load32(m, e.sels[b] + 4 * i) == e.picks[b][i])
  }

  lemma InputsKept(m: Memory, m': Memory, e: Tables, bc: nat, len: nat, a: nat, n: nat)
    requires Inputs(m, e, bc, len) && Outside(e, len, a, n) && AgreeOutside(m, m', a, a + n)
    ensures Inputs(m', e, bc, len)
  {
    hide Load64, Load32;
    forall b | 0 <= b < bc
      ensures Load64(m', e.tableArr + 8 * b) == e.tables[b] && Load64(m', e.selArr + 8 * b) == e.sels[b]
    {
      Load64Agree(m, m', e.tableArr + 8 * b);
      Load64Agree(m, m', e.selArr + 8 * b);
    }
    forall b, i {:trigger e.picks[b][i]} | 0 <= b < bc && 0 <= i < len && len == |e.picks[b]|
      ensures Load32(m', e.sels[b] + 4 * i) == e.picks[b][i]
    {
      Load32Agree(m, m', e.sels[b] + 4 * i);
    }
  }

  /** The line a label stands at. */
  function LineOf(prog: Program, x: Symbol): nat {
    match Resolve(prog, x)
    case Some(i) => i
    case None => 0
  }

  /** The first n entries of the table are the addresses of the branch's labels. */
  ghost predicate TableHas(prog: Program, m: Memory, table: nat, bc: nat, tc: nat, b: nat, n: nat) {
    forall t {:trigger IndirectTarget(bc, tc, b, t)} :: 0 <= t < n ==>
      Load64(m, table + 8 * t) == LineOf(prog, IndirectTarget(bc, tc, b, t))
  }

  /** The tables of the first n branches are filled. */
  ghost predicate TablesFilled(prog: Program, m: Memory, e: Tables, bc: nat, tc: nat, n: nat)
    requires n <= |e.tables|
  {
    forall b :: 0 <= b < n ==> TableHas(prog, m, e.tables[b], bc, tc, b, tc)
  }

  lemma TableKept(prog: Program, m: Memory, m': Memory, table: nat, bc: nat, tc: nat, b: nat, n: nat, a: nat, k: nat)
    requires TableHas(prog, m, table, bc, tc, b, n) && Apart(table, 8 * n, a, k) && AgreeOutside(m, m', a, a + k)
    ensures TableHas(prog, m', table, bc, tc, b, n)
  {
    hide Load64, LineOf;
    forall t {:trigger IndirectTarget(bc, tc, b, t)} | 0 <= t < n
      ensures Load64(m', table + 8 * t) == LineOf(prog, IndirectTarget(bc, tc, b, t))
    {
      Load64Agree(m, m', table + 8 * t);
    }
  }

  lemma TableExtended(prog: Program, m: Memory, table: nat, bc: nat, tc: nat, b: nat, t: nat, q: Word)
    requires TableHas(prog, m, table, bc, tc, b, t) && LineOf(prog, IndirectTarget(bc, tc, b, t)) == q
    ensures var m' := Store64(m, table + 8 * t, q);
      TableHas(prog, m', table, bc, tc, b, t + 1) && AgreeOutside(m, m', table + 8 * t, table + 8 * t + 8)
  {
    hide Load64, LineOf, Store64;
    var m' := Store64(m, table + 8 * t, q);
    Store64Laws(m, table + 8 * t, q);
    TableKept(prog, m, m', table, bc, tc, b, t, table + 8 * t, 8);
  }

  /** Every target label is defined, and line numbers fit a register. */
  ghost predicate Defined(prog: Program, bc: nat, tc: nat, b: nat) {
    && |prog| < TWO64
    && forall t {:trigger IndirectTarget(bc, tc, b, t)} :: 0 <= t < tc ==> Resolve(prog, IndirectTarget(bc, tc, b, t)).Some?
  }

  /** An instruction stands behind every target's label, so that no two targets have the same address. */
  ghost predicate TargetsApart(prog: Program, bc: nat, tc: nat) {
    forall b: nat, t: nat {:trigger IndirectTarget(bc, tc, b, t)} :: b < bc && t < tc ==>
      var q := LineOf(prog, IndirectTarget(bc, tc, b, t)); q + 1 < |prog| && prog[q + 1] == Op(Nop)
  }

  // ----- the pattern of jumps

  /** The jumps of one iteration at pattern position pos: one per branch, in order, each to the label its
      selection array names. */
  function RoundJumps(prog: Program, e: Tables, bc: nat, tc: nat, pos: nat, n: nat): seq<Event>
    requires n <= |e.picks| && forall b :: 0 <= b < n ==> pos < |e.picks[b]|
  {
    if n == 0 then []
    else RoundJumps(prog, e, bc, tc, pos, n - 1) + [Jumped(LineOf(prog, IndirectTarget(bc, tc, n - 1, e.picks[n - 1][pos])))]
  }

  /** The jumps of iterations k .. k+n-1: iteration k is at position k modulo the pattern length. */
  function Jumps(prog: Program, e: Tables, bc: nat, tc: nat, len: nat, k: nat, n: nat): seq<Event>
    requires len >= 1 && bc <= |e.picks| && forall b :: 0 <= b < bc ==> |e.picks[b]| == len
    decreases n
  {
    if n == 0 then [] else RoundJumps(prog, e, bc, tc, k % len, bc) + Jumps(prog, e, bc, tc, len, k + 1, n - 1)
  }

  lemma {:induction false} RoundJumpsCount(prog: Program, e: Tables, bc: nat, tc: nat, pos: nat, n: nat)
    requires n <= |e.picks| && forall b :: 0 <= b < n ==> pos < |e.picks[b]|
    ensures |RoundJumps(prog, e, bc, tc, pos, n)| == n
    ensures forall b :: 0 <= b < n ==>
      RoundJumps(prog, e, bc, tc, pos, n)[b] == Jumped(LineOf(prog, IndirectTarget(bc, tc, b, e.picks[b][pos])))
  {
    hide LineOf;
    if n != 0 {
      RoundJumpsCount(prog, e, bc, tc, pos, n - 1);
    }
  }

  /** n iterations make bc * n indirect jumps. */
  lemma {:induction false} JumpsCount(prog: Program, e: Tables, bc: nat, tc: nat, len: nat, k: nat, n: nat)
    requires len >= 1 && bc <= |e.picks| && forall b :: 0 <= b < bc ==> |e.picks[b]| == len
    ensures |Jumps(prog, e, bc, tc, len, k, n)| == bc * n
    decreases n
  {
    if n != 0 {
      RoundJumpsCount(prog, e, bc, tc, k % len, bc);
      JumpsCount(prog, e, bc, tc, len, k + 1, n - 1);
      assert bc * n == bc + bc * (n - 1);
    }
  }

  /** Jump b of iteration i goes to the label that branch b's selection array names at position (k + i) mod len. */
  lemma {:induction false} JumpsAt(prog: Program, e: Tables, bc: nat, tc: nat, len: nat, k: nat, n: nat, i: nat, b: nat)
    requires len >= 1 && bc <= |e.picks| && (forall b :: 0 <= b < bc ==> |e.picks[b]| == len) && i < n && b < bc
    ensures bc * i + b < |Jumps(prog, e, bc, tc, len, k, n)| == bc * n && (k + i) % len < len
    ensures Jumps(prog, e, bc, tc, len, k, n)[bc * i + b] == JumpOf(prog, e, bc, tc, b, (k + i) % len)
    decreases n
  {
    hide Jumps, JumpOf;
    JumpsCount(prog, e, bc, tc, len, k, n);
    JumpsFront(prog, e, bc, tc, len, k, n, b);
    RoundFits(bc, n);
    if i > 0 {
      JumpsAt(prog, e, bc, tc, len, k + 1, n - 1, i - 1, b);
      RoundFits(bc, i);
      assert (k + 1) + (i - 1) == k + i;
    }
  }

  /** The jump to the label that branch b's selection array names at a position. */
  function JumpOf(prog: Program, e: Tables, bc: nat, tc: nat, b: nat, pos: nat): Event
    requires b < |e.picks| && pos < |e.picks[b]|
  {
    Jumped(LineOf(prog, IndirectTarget(bc, tc, b, e.picks[b][pos])))
  }

  /** The jumps of the first iteration, and of the others behind them. */
  lemma JumpsFront(prog: Program, e: Tables, bc: nat, tc: nat, len: nat, k: nat, n: nat, b: nat)
    requires len >= 1 && bc <= |e.picks| && (forall b :: 0 <= b < bc ==> |e.picks[b]| == len) && n >= 1 && b < bc
    ensures var all, rest := Jumps(prog, e, bc, tc, len, k, n), Jumps(prog, e, bc, tc, len, k + 1, n - 1);
      && |all| == bc + |rest| && all[b] == JumpOf(prog, e, bc, tc, b, k % len) && forall j :: 0 <= j < |rest| ==> all[bc + j] == rest[j]
  {
    hide LineOf, RoundJumps;
    RoundJumpsCount(prog, e, bc, tc, k % len, bc);
  }

  lemma RoundFits(bc: nat, n: nat)
    requires n >= 1
    ensures bc <= bc * n == bc + bc * (n - 1)
  {
  }
}
