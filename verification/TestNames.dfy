/** The label strings of the structure, branch-target-buffer and branch-history tests. Within one test the strings tell its
    labels apart. */
module TestNames {
  import opened Symbols
  import opened Names

  /** Labels of tests whose names begin with a prefix chosen by the test. */
  predicate Prefixed(x: Symbol) {
    x.TestTop? || x.TestStart? || x.BtbTop? || x.BtbHead? || x.BtbPart? || x.BtbExit?
  }

  /** What follows the count. */
  function Rest(x: Symbol): string
    requires Prefixed(x)
  {
    match x
    case TestTop(_, _) => ""
    case TestStart(_, _) => "start"
    case BtbTop(_, _) => ""
    case BtbHead(_, _) => "_itarget"
    case BtbPart(_, _, part) => "part" + Dec(part)
    case BtbExit(_, _) => "_aarch64_indirect_workaround"
  }

  function Name(x: Symbol): string
    requires Prefixed(x)
  {
    x.prefix + (Dec(x.count) + Rest(x))
  }

  /** Both labels belong to structure tests, or both to branch-target-buffer tests. */
  predicate Alike(x: Symbol, y: Symbol) {
    (x.TestTop? || x.TestStart?) <==> (y.TestTop? || y.TestStart?)
  }

  lemma RestKinds(x: Symbol)
    requires Prefixed(x)
    ensures Stops(Rest(x)) && (x.TestTop? || x.BtbTop? <==> Rest(x) == "")
    ensures x.TestStart? <==> Rest(x) != "" && Rest(x)[0] == 's'
    ensures x.BtbPart? <==> Rest(x) != "" && Rest(x)[0] == 'p'
    ensures x.BtbHead? <==> |Rest(x)| >= 2 && Rest(x)[1] == 'i'
    ensures x.BtbExit? <==> |Rest(x)| >= 2 && Rest(x)[0] == '_' && Rest(x)[1] == 'a'
  {
    if x.BtbPart? {
      assert Rest(x)[0] == 'p' && Rest(x)[1] == 'a';
    }
  }

  /** Different labels of one test have different names. */
  lemma NameInjective(x: Symbol, y: Symbol)
    requires Prefixed(x) && Prefixed(y) && Alike(x, y) && x.prefix == y.prefix && Name(x) == Name(y)
    ensures x == y
  {
    hide Dec, Rest, Stops;
    RestKinds(x);
    RestKinds(y);
    Cancel(x.prefix, Dec(x.count) + Rest(x), Dec(y.count) + Rest(y));
    DecSplit(x.count, Rest(x), y.count, Rest(y));
    if x.BtbPart? {
      SamePart(x, y);
    }
  }

  lemma SamePart(x: Symbol, y: Symbol)
    requires x.BtbPart? && y.BtbPart? && Rest(x) == Rest(y)
    ensures x.part == y.part
  {
    hide Dec;
    Cancel("part", Dec(x.part), Dec(y.part));
    DecInjective(x.part, y.part);
  }

  /** One label of each kind, as printed. */
  lemma StructurePrinted()
    ensures Name(TestTop("stq", 8)) == "stq8" && Name(TestStart("stq", 8)) == "stq8start"
  {
    hide Dec;
    Numerals();
  }

  lemma BtbPrinted()
    ensures Name(BtbTop("btb16", 8)) == "btb168" && Name(BtbHead("btb16", 8)) == "btb168_itarget" && Name(BtbPart("btb16", 8, 3)) == "btb168part3"
  {
    hide Dec;
    Numerals();
  }

  lemma ExitPrinted()
    ensures Name(BtbExit("btb16", 8)) == "btb16" + "8" + "_aarch64_indirect_workaround"
  {
    hide Dec;
    Numerals();
  }

  const TRAP := "jumpsched_reallybadthing"

  /** The trap's label is not the name of a function or a loop of its test. */
  lemma TrapApart(x: Symbol)
    requires Prefixed(x) && x.prefix == "jmpsched"
    ensures Name(x) != TRAP
  {
    assert Name(x)[1] == 'm';
  }

  // ----- branch history: the blocks' labels print the count twice, on x86 once

  predicate OfBranch(x: Symbol) {
    x.BranchTop? || x.BranchLoop? || x.BranchZero?
  }

  function BranchRest(x: Symbol): string
    requires OfBranch(x)
  {
    match x
    case BranchTop(_) => ""
    case BranchLoop(_) => "_loop"
    case BranchZero(_, branch) => "_zero" + Dec(branch)
  }

  /** The digits before the rest. */
  function Digits(x: Symbol, twice: bool): string
    requires OfBranch(x)
  {
    if x.BranchZero? && twice then Dec(x.count) + Dec(x.count) else Dec(x.count)
  }

  function BranchName(x: Symbol, twice: bool): string
    requires OfBranch(x)
  {
    "branchhist" + (Digits(x, twice) + BranchRest(x))
  }

  /** One label of each kind, as printed. */
  lemma BranchPrinted(twice: bool)
    ensures BranchName(BranchTop(8), twice) == "branchhist8" && BranchName(BranchLoop(8), twice) == "branchhist8_loop"
    ensures BranchName(BranchZero(8, 3), twice) == if twice then "branchhist88_zero3" else "branchhist8_zero3"
  {
    hide Dec;
    Numerals();
  }

  lemma BranchKinds(x: Symbol)
    requires OfBranch(x)
    ensures Stops(BranchRest(x)) && (x.BranchTop? <==> BranchRest(x) == "")
    ensures x.BranchLoop? <==> |BranchRest(x)| >= 2 && BranchRest(x)[1] == 'l'
  {
  }

  ghost predicate AllDigits(a: string) {
    forall i :: 0 <= i < |a| ==> IsDigit(a[i])
  }

  lemma DigitsEnd(a: string, s: string, b: string, t: string)
    requires a + s == b + t && Stops(s) && AllDigits(b)
    ensures |b| <= |a|
  {
    var w := a + s;
    assert s != "" ==> w[|a|] == s[0];
    assert forall i :: 0 <= i < |b| ==> IsDigit((b + t)[i]);
  }

  /** Text of digits is read off the front of a string in only one way. */
  lemma SplitDigits(a: string, s: string, b: string, t: string)
    requires a + s == b + t && Stops(s) && Stops(t) && AllDigits(a) && AllDigits(b)
    ensures a == b && s == t
  {
    var w := a + s;
    DigitsEnd(a, s, b, t);
    DigitsEnd(b, t, a, s);
    assert a == w[..|a|] == b;
    assert s == w[|a|..] == t;
  }

  lemma Doubled(a: string, b: string)
    requires a + a == b + b
    ensures a == b
  {
    var w := a + a;
    assert |a| == |b|;
    assert a == w[..|a|] == b;
  }

  lemma BranchNameInjective(x: Symbol, y: Symbol, twice: bool)
    requires OfBranch(x) && OfBranch(y) && BranchName(x, twice) == BranchName(y, twice)
    ensures x == y
  {
    hide BranchRest, Stops;
    BranchKinds(x);
    BranchKinds(y);
    Cancel("branchhist", Digits(x, twice) + BranchRest(x), Digits(y, twice) + BranchRest(y));
    SplitDigits(Digits(x, twice), BranchRest(x), Digits(y, twice), BranchRest(y));
    if x.BranchZero? && twice {
      Doubled(Dec(x.count), Dec(y.count));
    }
    DecInjective(x.count, y.count);
    if x.BranchZero? {
      SameBranch(x, y);
    }
  }

  lemma SameBranch(x: Symbol, y: Symbol)
    requires x.BranchZero? && y.BranchZero? && BranchRest(x) == BranchRest(y)
    ensures x.branch == y.branch
  {
    hide Dec;
    Cancel("_zero", Dec(x.branch), Dec(y.branch));
    DecInjective(x.branch, y.branch);
  }
}
