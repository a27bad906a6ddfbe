/** Byte layout of a listing of 4-byte instructions with alignment directives. */
module Layout {
  import opened Listing
  import opened Sums

  const INSTRUCTION := 4

  /** A line of a listing, or an alignment directive. Padding that control falls into is taken to do nothing, as the
      assembler's padding does. */
  datatype Item<I> = Text(line: Line<I>) | Align(bytes: nat)

  function RoundUp(a: nat, n: nat): nat
    requires n >= 1
  {
    (a + n - 1) / n * n
  }

  /** The address behind an item that starts at a. */
  function After<I>(item: Item<I>, a: nat): nat {
    match item
    case Text(line) => if line.Op? then a + INSTRUCTION else a
    case Align(n) => if n == 0 then a else RoundUp(a, n)
  }

  /** The address behind the items, the first of which starts at a. */
  function End<I>(items: seq<Item<I>>, a: nat): nat {
    if items == [] then a else After(items[|items| - 1], End(items[..|items| - 1], a))
  }

  /** What is left when the directives are taken out. */
  function Lines<I>(items: seq<Item<I>>): (r: seq<Line<I>>)
    ensures |r| <= |items|
  {
    if items == [] then []
    else Lines(items[..|items| - 1]) + (match items[|items| - 1] case Text(line) => [line] case Align(_) => [])
  }

  lemma {:induction false} EndAppend<I>(a: seq<Item<I>>, b: seq<Item<I>>, at: nat)
    ensures End(a + b, at) == End(b, End(a, at))
    decreases |b|
  {
    hide After;
    if b == [] {
      assert a + b == a;
    } else {
      var front := b[..|b| - 1];
      EndAppend(a, front, at);
      assert (a + b)[..|a + b| - 1] == a + front;
    }
  }

  lemma {:induction false} LinesAppend<I>(a: seq<Item<I>>, b: seq<Item<I>>)
    ensures Lines(a + b) == Lines(a) + Lines(b)
    decreases |b|
  {
    if b == [] {
      assert a + b == a;
    } else {
      var front := b[..|b| - 1];
      LinesAppend(a, front);
      assert (a + b)[..|a + b| - 1] == a + front;
    }
  }

  lemma RoundUpMultiple(n: nat, m: nat, r: nat)
    requires 1 <= r <= n
    ensures RoundUp(m * n + r, n) == (m + 1) * n
  {
    assert m * n + r + n - 1 == (m + 1) * n + (r - 1);
    Remainder(m * n + r + n - 1, n, m + 1, r - 1);
  }

  /** Rounding up gives the next multiple, less than n further on. */
  lemma RoundUpNext(a: nat, n: nat)
    requires n >= 1
    ensures a <= RoundUp(a, n) < a + n && RoundUp(a, n) % n == 0
  {
    var q, r := (a + n - 1) / n, (a + n - 1) % n;
    assert a + n - 1 == q * n + r;
    Remainder(q * n, n, q, 0);
  }
}
